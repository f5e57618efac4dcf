// Finite continuations of a run: how they compose, and the two deliveries they are built from.

module Continuation {
  import opened Wrappers
  import opened Wire
  import opened SenderWindow
  import opened ClientMachine
  import opened ServerMachine
  import opened Network
  import opened Invariant
  import opened Clocks

  function Time(a: Action): nat
    requires !a.Lose?
  {
    match a case ClientActs(e) => e.t case ServerActs(e) => e.t
  }

  // The surroundings do nothing but deliver packets of this session that are on their way.
  ghost predicate Undisturbed(st: System, a: Action)
  {
    match a
    case ClientActs(e) =>
      st.c.waiting ==> !e.outcome.RecvFailed? && !e.outcome.Malformed?
                       && (e.outcome.Recv? ==> e.outcome.p in st.toClient && e.outcome.src == Peer)
    case ServerActs(e) =>
      st.s.waiting ==> !e.outcome.RecvFailed? && !e.outcome.Malformed?
                       && (e.outcome.Recv? ==> e.outcome.p in st.toServer && e.outcome.src == Peer)
    case Lose(_, _) => false
  }

  // acts is an undisturbed run from st to st', at instants that one clock reads
  // off within [from, to].
  ghost predicate Leads(ss: Session, st: System, acts: seq<Action>, from: nat, st': System, to: nat)
    decreases |acts|
  {
    if acts == [] then st == st' && from <= to
    else
      var a := acts[0];
      && !a.Lose? && Enabled(ss, st, a) && Timely(st, a) && Undisturbed(st, a) && from <= Time(a)
      && Leads(ss, Apply(ss, st, a), acts[1..], Time(a), st', to)
  }

  // The facts every state on the way keeps.
  ghost predicate Sound(ss: Session, st: System)
    requires ValidSession(ss)
  {
    Inv(ss, st) && ClockInv(ss, st)
  }

  lemma OneStep(ss: Session, st: System, a: Action, t: nat)
    requires ValidSession(ss) && Sound(ss, st)
    requires !a.Lose? && Enabled(ss, st, a) && Timely(st, a) && Undisturbed(st, a) && Time(a) == t
    ensures Leads(ss, st, [a], t, Apply(ss, st, a), t) && Sound(ss, Apply(ss, st, a))
  {
    hide Enabled, Timely, Undisturbed, Apply, Inv, ClockInv;
    var rest := [a][1..];
    assert rest == [];
    assert Leads(ss, Apply(ss, st, a), rest, t, Apply(ss, st, a), t);
    StepKeeps(ss, st, a);
    ClockStepKeeps(ss, st, a);
  }

  lemma {:induction false} Compose(ss: Session, st: System, a: seq<Action>, from: nat, mid: System, at: nat, b: seq<Action>, st': System, to: nat)
    requires Leads(ss, st, a, from, mid, at) && Leads(ss, mid, b, at, st', to)
    ensures Leads(ss, st, a + b, from, st', to)
    decreases |a|
  {
    hide Enabled, Timely, Undisturbed, Apply;
    if a == [] {
      assert a + b == b;
      Earlier(ss, mid, b, from, at, st', to);
    } else {
      Compose(ss, Apply(ss, st, a[0]), a[1..], Time(a[0]), mid, at, b, st', to);
      assert (a + b)[1..] == a[1..] + b;
    }
  }

  lemma {:induction false} Earlier(ss: Session, st: System, b: seq<Action>, from: nat, at: nat, st': System, to: nat)
    requires from <= at && Leads(ss, st, b, at, st', to)
    ensures Leads(ss, st, b, from, st', to)
  {
    hide Enabled, Timely, Undisturbed, Apply;
  }

  lemma {:induction false} Extend(ss: Session, st: System, b: seq<Action>, from: nat, st': System, at: nat, to: nat)
    requires at <= to && Leads(ss, st, b, from, st', at)
    ensures Leads(ss, st, b, from, st', to)
    decreases |b|
  {
    hide Enabled, Timely, Undisturbed, Apply;
    if b != [] { Extend(ss, Apply(ss, st, b[0]), b[1..], Time(b[0]), st', at, to); }
  }

  lemma NoStep(ss: Session, st: System, t: nat)
    ensures Leads(ss, st, [], t, st, t)
  {
  }

  // A continuation is a run, on a working clock.
  lemma {:induction false} LeadsIsRun(ss: Session, st: System, acts: seq<Action>, from: nat, st': System, to: nat)
    requires Leads(ss, st, acts, from, st', to)
    ensures TimelyRun(ss, st, acts) && CanRun(ss, st, acts) && Run(ss, st, acts) == st'
    decreases |acts|
  {
    hide Enabled, Timely, Undisturbed, Apply;
    if acts != [] { LeadsIsRun(ss, Apply(ss, st, acts[0]), acts[1..], Time(acts[0]), st', to); }
  }

  // Both sides have ended with EX_OK and the output is the input.
  ghost predicate Complete(ss: Session, st: System)
  {
    && st.c.phase == Done && st.c.exit == EX_OK && st.s.phase == Finished && st.s.exit == EX_OK
    && st.s.out == Input(ss)
  }

  // Some continuation of st, from instant t on, ends the session completely.
  ghost predicate CanComplete(ss: Session, st: System, t: nat)
  {
    exists acts: seq<Action>, st': System, to: nat :: Leads(ss, st, acts, t, st', to) && Complete(ss, st')
  }

  // The server comes to its next datagram at instant t: it is blocked in its
  // wait, or its watchdog lets it pass the head of its handler.
  ghost predicate Listens(ss: Session, s: Server, t: nat)
  {
    s.waiting || !Expired(s.lastProgress, t, ss.serverTimeout)
  }

  function CE(t: nat, outcome: Outcome): ClientEnv
  {
    ClientEnv(t, false, None, outcome, true)
  }

  function SE(t: nat, outcome: Outcome): ServerEnv
  {
    ServerEnv(t, false, outcome, true, MAX_PAYLOAD)
  }

  // The server at instant t, about to look at a packet.
  function ServerAt(s: Server, t: nat): Server
  {
    s.(now := t, waiting := false, deadline := 0)
  }

  function ClientAt(c: Client, t: nat): Client
  {
    c.(now := t, waiting := false, deadline := 0)
  }

  lemma ServerWaits(ss: Session, st: System, t: nat) returns (acts: seq<Action>, st': System)
    requires ValidSession(ss) && Sound(ss, st) && st.s.phase != Finished && st.s.now <= t
    requires Listens(ss, st.s, t)
    ensures Leads(ss, st, acts, t, st', t) && Sound(ss, st')
    ensures st'.s.waiting && ServerAt(st'.s, t) == ServerAt(st.s, t) && st'.s.now <= t
    ensures st.s.waiting ==> st' == st
    ensures st'.s.deadline == if st.s.waiting then st.s.deadline else t + RETRANSMIT_INTERVAL_MS
    ensures st'.c == st.c && st'.toServer == st.toServer && st'.toClient == st.toClient
  {
    if st.s.waiting {
      acts, st' := [], st;
    } else {
      var a := ServerActs(SE(t, Timeout));
      OneStep(ss, st, a, t);
      acts, st' := [a], Apply(ss, st, a);
      assert st'.toClient == st.toClient;
    }
  }

  // The server takes in p, sent earlier, at instant t.
  lemma ServerTakes(ss: Session, st: System, t: nat, p: Packet) returns (acts: seq<Action>, st': System)
    requires ValidSession(ss) && Sound(ss, st) && st.s.phase != Finished && st.s.now <= t
    requires Listens(ss, st.s, t) && p in st.toServer
    ensures Leads(ss, st, acts, t, st', t) && Sound(ss, st')
    ensures var (s', sent) := ServerReceive(ServerConf(ss), ServerAt(st.s, t).(addr := Peer), SE(t, Recv(p, Peer)), p);
            st'.s == s' && st'.toClient == st.toClient + Emitted(s'.addr, sent)
    ensures st'.c == st.c && st'.toServer == st.toServer
  {
    hide Inv, ServerReceive, Expired;
    var waits, mid := ServerWaits(ss, st, t);
    var a := ServerActs(SE(t, Recv(p, Peer)));
    OneStep(ss, mid, a, t);
    st' := Apply(ss, mid, a);
    Compose(ss, st, waits, t, mid, t, [a], st', t);
    acts := waits + [a];
  }

  // The client, blocked in its wait, takes in p at instant t.
  lemma ClientTakes(ss: Session, st: System, t: nat, p: Packet) returns (acts: seq<Action>, st': System)
    requires ValidSession(ss) && Sound(ss, st) && st.c.phase != Done && st.c.waiting && st.c.now <= t && p in st.toClient
    ensures Leads(ss, st, acts, t, st', t) && Sound(ss, st')
    ensures var (c', sent) := ClientReceive(ClientAt(st.c, t).(addr := Peer), CE(t, Recv(p, Peer)), p);
            st'.c == c' && st'.toServer == st.toServer + Emitted(c'.addr, sent)
    ensures st'.s == st.s && st'.toClient == st.toClient
  {
    hide Inv, ClientReceive;
    var a := ClientActs(CE(t, Recv(p, Peer)));
    OneStep(ss, st, a, t);
    acts, st' := [a], Apply(ss, st, a);
  }

  // The client's next head, at instant t.
  lemma ClientTurns(ss: Session, st: System, t: nat) returns (acts: seq<Action>, st': System)
    requires ValidSession(ss) && Sound(ss, st) && st.c.phase != Done && !st.c.waiting && st.c.now <= t
    ensures Leads(ss, st, acts, t, st', t) && Sound(ss, st')
    ensures var (c', sent) := ClientHead(ClientConf(ss), st.c.(now := t), CE(t, Timeout));
            st'.c == c' && st'.toServer == st.toServer + Emitted(c'.addr, sent)
    ensures st'.s == st.s && st'.toClient == st.toClient
  {
    hide Inv, ClientHead;
    var a := ClientActs(CE(t, Timeout));
    OneStep(ss, st, a, t);
    acts, st' := [a], Apply(ss, st, a);
  }

  // The client's wait runs out at instant t.
  lemma ClientTimesOut(ss: Session, st: System, t: nat) returns (acts: seq<Action>, st': System)
    requires ValidSession(ss) && Sound(ss, st) && st.c.phase != Done && st.c.waiting && st.c.now <= t && st.c.deadline <= t
    ensures Leads(ss, st, acts, t, st', t) && Sound(ss, st')
    ensures var (c', sent) := ClientTimeout(ClientConf(ss), ClientAt(st.c, t), CE(t, Timeout));
            st'.c == c' && st'.toServer == st.toServer + Emitted(c'.addr, sent)
    ensures st'.s == st.s && st'.toClient == st.toClient
  {
    hide Inv, ClientTimeout;
    var a := ClientActs(CE(t, Timeout));
    OneStep(ss, st, a, t);
    acts, st' := [a], Apply(ss, st, a);
  }

  // The server's wait in LAST_ACK runs out at instant t.
  lemma ServerTimesOut(ss: Session, st: System, t: nat) returns (acts: seq<Action>, st': System)
    requires ValidSession(ss) && Sound(ss, st) && st.s.phase == LastAck && st.s.waiting && st.s.now <= t && st.s.deadline <= t
    ensures Leads(ss, st, acts, t, st', t) && Sound(ss, st')
    ensures st'.c == st.c && st'.toServer == st.toServer && st.toClient <= st'.toClient
    ensures if Expired(st.s.lastProgress, t, ss.serverTimeout)
            then st'.s == Stop(ServerAt(st.s, t), EX_OK)
            else && st'.s == ServerAt(st.s, t)
                 && (st.s.addr == Peer ==> Control(ServerAt(st.s, t), FLAG_FIN_ACK) in st'.toClient)
  {
    hide Inv;
    var a := ServerActs(SE(t, Timeout));
    OneStep(ss, st, a, t);
    acts, st' := [a], Apply(ss, st, a);
  }
}
