// Runs that reach the states the no-stuck-state theorem tells apart.

module Witnesses {
  import opened Wrappers
  import opened Wire
  import opened SenderWindow
  import opened ClientMachine
  import opened ServerMachine
  import opened Network
  import opened Invariant
  import opened Clocks
  import opened Continuation
  import opened Progress
  import opened Restart
  import opened Stuck
  import opened NoStuckState

  ghost predicate Usable(ss: Session)
  {
    ValidSession(ss) && ss.clientTimeout > 0 && ss.serverTimeout > 0
  }

  lemma LedTo(ss: Session, acts: seq<Action>, st: System, to: nat)
    requires Leads(ss, Start(ss, 1, 1), acts, 1, st, to)
    ensures ReachableOnClocks(ss, st)
  {
    hide Leads, TimelyRun, Run;
    LeadsIsRun(ss, Start(ss, 1, 1), acts, 1, st, to);
  }

  // SYN, SYN+ACK, and the client's ACK on its way.
  lemma Shaken(ss: Session) returns (acts: seq<Action>, st: System)
    requires Usable(ss)
    ensures Leads(ss, Start(ss, 1, 1), acts, 1, st, 1) && Sound(ss, st)
    ensures st.c.phase == Established && st.c.connId == ss.connId && st.c.addr == Peer && st.c.lastProgress == 1 && st.c.now == 1
    ensures st.s.phase == Handshaking && !st.s.waiting && st.s.lastProgress == 1 && st.s.now == 1
  {
    hide ChunkRun, Leads, UpOk, DownOk;
    var st0 := Start(ss, 1, 1);
    StartInv(ss, 1, 1);
    var a1, st1 := ClientTurns(ss, st0, 1);
    assert SynPacket(ss) in st1.toServer;
    var a2, st2 := ServerTakes(ss, st1, 1, SynPacket(ss));
    assert ServerPacket(ss, FLAG_SYN_ACK, First(ss)) in st2.toClient;
    var a3, st3 := ClientTurns(ss, st2, 1);
    var a4, st4 := ClientTakes(ss, st3, 1, ServerPacket(ss, FLAG_SYN_ACK, First(ss)));
    Compose(ss, st0, a1, 1, st1, 1, a2, st2, 1);
    Compose(ss, st0, a1 + a2, 1, st2, 1, a3, st3, 1);
    Compose(ss, st0, a1 + a2 + a3, 1, st3, 1, a4, st4, 1);
    acts, st := a1 + a2 + a3 + a4, st4;
  }

  lemma Entered(ss: Session, st: System, t: nat) returns (acts: seq<Action>, st': System)
    requires Usable(ss) && Sound(ss, st) && st.c.now <= t
    requires st.c.phase == Established && ClientPatient(ss, st.c, t)
    ensures Leads(ss, st, acts, t, st', t) && Sound(ss, st')
    ensures st'.c.phase == Transfer && !st'.c.waiting && st'.c.addr == st.c.addr && st'.c.now == t && !st'.c.eof
    ensures st'.c.lastProgress == st.c.lastProgress && st'.c.connId == st.c.connId
    ensures st'.c.window.base == st'.c.window.next == First(ss) && st'.s == st.s
  {
    hide ChunkRun, Leads, UpOk, DownOk, Flatten, ServerInv, Cross, Expired;
    acts, st' := ClientTurns(ss, st, t);
  }

  // The first turn of the transfer loop sends the first chunk.
  lemma FirstTurn(ss: Session, st: System, t: nat) returns (acts: seq<Action>, st': System)
    requires Usable(ss) && ss.chunks != [] && Sound(ss, st) && st.c.phase == Transfer && !st.c.waiting && st.c.now == t
    requires st.c.window.base == st.c.window.next == First(ss) && !st.c.eof && st.c.addr == Peer && ClientPatient(ss, st.c, t)
    ensures Leads(ss, st, acts, t, st', t) && Sound(ss, st')
    ensures st'.c.phase == Transfer && st'.c.waiting && st'.c.addr == Peer && st'.c.now == t
    ensures st'.c.lastProgress == st.c.lastProgress && st'.c.connId == st.c.connId
    ensures First(ss) == st'.c.window.base < st'.c.window.next <= End(ss) && st'.c.window.timer <= t
    ensures t < st'.c.window.timer + RETRANSMIT_INTERVAL_MS
    ensures Data(ss, First(ss)) in st'.toServer && st'.s == st.s
  {
    hide ChunkRun, Leads, UpOk, DownOk, TransferHead, Flatten, ServerInv, Expired;
    acts, st' := ClientTurns(ss, st, t);
    var c := st.c.(now := t);
    TransferTurn(ss, c, t);
    NewDataIsSent(ss, c, t);
    TransferHeadClockwork(ClientConf(ss), c, CE(t, Timeout));
    TransferHeadKeeps(ClientConf(ss), ss.isn, ss.chunks, c, CE(t, Timeout));
  }

  // The client's next two heads at instant t: the entry of ESTABLISHED and the first fill.
  lemma Opened(ss: Session, st: System, t: nat) returns (acts: seq<Action>, st': System)
    requires Usable(ss) && ss.chunks != [] && Sound(ss, st) && 0 < t && st.c.now <= t
    requires st.c.phase == Established && st.c.addr == Peer && ClientPatient(ss, st.c, t)
    ensures Leads(ss, st, acts, t, st', t) && Sound(ss, st')
    ensures st'.c.phase == Transfer && st'.c.waiting && st'.c.addr == Peer && st'.c.now == t
    ensures st'.c.lastProgress == st.c.lastProgress && st'.c.connId == st.c.connId
    ensures First(ss) == st'.c.window.base < st'.c.window.next <= End(ss) && st'.c.window.timer <= t
    ensures t < st'.c.window.timer + RETRANSMIT_INTERVAL_MS
    ensures Data(ss, First(ss)) in st'.toServer && st'.s == st.s
  {
    hide Leads, Sound, Expired;
    var a1, st1 := Entered(ss, st, t);
    var a2, st2 := FirstTurn(ss, st1, t);
    Compose(ss, st, a1, t, st1, t, a2, st2, t);
    acts, st' := a1 + a2, st2;
  }

  // Every session with an empty input can come to lose its handshake ACK, with
  // nobody out of time, and then nothing completes it.
  lemma EmptyInputCanHang(ss: Session) returns (st: System)
    requires Usable(ss) && ss.chunks == []
    ensures ReachableOnClocks(ss, st) && Alive(st) && InTime(ss, st, 1) && !Recoverable(ss, st)
    ensures !CanComplete(ss, Emptied(st), 1)
  {
    hide Leads, Sound, Complete;
    var acts;
    acts, st := Shaken(ss);
    LedTo(ss, acts, st, 1);
    NoStuckStates(ss, st, 1);
  }

  // Every session with something to send can come to a transfer in which only
  // the client's watchdog is in the way: it fires before the timer.
  lemma TransferCanBeLate(ss: Session) returns (st: System, t: nat)
    requires Usable(ss) && ss.chunks != []
    ensures ReachableOnClocks(ss, st) && st.c.now <= t && st.s.now <= t && Alive(st) && Recoverable(ss, st)
    ensures st.c.phase == Transfer && st.c.waiting && st.c.addr == Peer && st.s.waiting
    ensures ClientPatient(ss, st.c, t) && !ClientPatient(ss, st.c, Resends(st.c, t)) && !CanComplete(ss, Emptied(st), t)
  {
    hide Leads, Inv, Complete;
    var a1, st1 := Shaken(ss);
    var a2, st2 := ServerWaits(ss, st1, 1);
    Compose(ss, Start(ss, 1, 1), a1, 1, st1, 1, a2, st2, 1);
    t := 1000 * ss.clientTimeout;
    Extend(ss, Start(ss, 1, 1), a1 + a2, 1, st2, 1, t);
    var a3, st3 := Opened(ss, st2, t);
    Compose(ss, Start(ss, 1, 1), a1 + a2, 1, st2, t, a3, st3, t);
    st := st3;
    LedTo(ss, a1 + a2 + a3, st, t);
    WaitingFacts(ss, st, t);
    NoStuckStates(ss, st, t);
  }

  // The transfer open on both sides, the first chunk sent and not yet written.
  lemma InTransfer(ss: Session) returns (acts: seq<Action>, st: System)
    requires Usable(ss) && ss.chunks != []
    ensures Leads(ss, Start(ss, 1, 1), acts, 1, st, 1) && Sound(ss, st) && ReachableOnClocks(ss, st)
    ensures st.c.phase == Transfer && st.c.waiting && st.c.addr == Peer && st.c.lastProgress == 1 && st.c.now == 1
    ensures st.c.window.base < st.c.window.next && !NewData(st.c) && st.c.window.timer <= 1
    ensures st.s.phase == Receiving && st.s.waiting && st.s.lastProgress == 1 && st.s.now == 1 && st.s.ackNum == st.c.window.base
  {
    hide ChunkRun, Leads, UpOk, DownOk, Flatten, TimelyRun;
    var st0 := Start(ss, 1, 1);
    var a1, st1 := Shaken(ss);
    var a2, st2 := Opened(ss, st1, 1);
    Compose(ss, st0, a1, 1, st1, 1, a2, st2, 1);
    var a3, st3 := ServerTakes(ss, st2, 1, Data(ss, First(ss)));
    Compose(ss, st0, a1 + a2, 1, st2, 1, a3, st3, 1);
    var a4, st4 := ServerWaits(ss, st3, 1);
    Compose(ss, st0, a1 + a2 + a3, 1, st3, 1, a4, st4, 1);
    acts, st := a1 + a2 + a3 + a4, st4;
    LedTo(ss, acts, st, 1);
    WaitingFacts(ss, st, 1);
  }

  // One stray datagram, even one that parse_packet drops, takes the client's
  // sends to its sender: in every session with something to send there is a
  // state from which all is well, that datagram arrives, and nothing completes.
  lemma StrayDatagramStrands(ss: Session) returns (st: System, e: ClientEnv)
    requires Usable(ss) && ss.chunks != []
    ensures ReachableOnClocks(ss, st) && CanComplete(ss, Emptied(st), 1)
    ensures Enabled(ss, st, ClientActs(e)) && e.outcome == Malformed(Stranger)
    ensures var st' := Apply(ss, st, ClientActs(e));
            ReachableOnClocks(ss, st') && Alive(st') && Recoverable(ss, st') && st'.c.addr == Stranger
            && !CanComplete(ss, Emptied(st'), 1)
  {
    hide Leads, Inv, Complete, ClientStep, ReachableOnClocks;
    var acts;
    acts, st := InTransfer(ss);
    NoStuckStates(ss, st, 1);
    e := CE(1, Malformed(Stranger));
    StrayTail(ss, st.c, e);
    ReachMore(ss, st, ClientActs(e));
    NoStuckStates(ss, Apply(ss, st, ClientActs(e)), 1);
  }

  lemma ReachMore(ss: Session, st: System, a: Action)
    requires ReachableOnClocks(ss, st) && Enabled(ss, st, a) && Timely(st, a)
    ensures ReachableOnClocks(ss, Apply(ss, st, a))
  {
    hide TimelyRun, Run, Enabled, Timely, Apply;
    var clientNow: nat, serverNow: nat, acts: seq<Action> :|
      && 0 < clientNow && 0 < serverNow
      && TimelyRun(ss, Start(ss, clientNow, serverNow), acts) && st == Run(ss, Start(ss, clientNow, serverNow), acts);
    OneMore(ss, Start(ss, clientNow, serverNow), acts, a);
  }

  lemma StrayTail(ss: Session, c: Client, e: ClientEnv)
    requires c.phase == Transfer && c.waiting && e.outcome == Malformed(Stranger)
    ensures ClientStep(ClientConf(ss), c, e) == (c.(now := e.t, waiting := false, deadline := 0, addr := Stranger), [])
  {
  }

  lemma {:induction false} OneMore(ss: Session, st: System, acts: seq<Action>, a: Action)
    requires TimelyRun(ss, st, acts) && Enabled(ss, Run(ss, st, acts), a) && Timely(Run(ss, st, acts), a)
    ensures TimelyRun(ss, st, acts + [a]) && Run(ss, st, acts + [a]) == Apply(ss, Run(ss, st, acts), a)
    decreases |acts|
  {
    hide Enabled, Timely, Apply;
    if acts == [] {
      assert [] + [a] == [a] && [a][1..] == [];
      assert TimelyRun(ss, Apply(ss, st, a), []) && Run(ss, Apply(ss, st, a), []) == Apply(ss, st, a);
    } else {
      OneMore(ss, Apply(ss, st, acts[0]), acts[1..], a);
      assert (acts + [a])[1..] == acts[1..] + [a];
    }
  }

  // A server whose watchdog has run out, but which is blocked in its wait, is
  // saved by the chunk it expects.
  lemma LateServerIsSaved(ss: Session) returns (st: System, t: nat)
    requires Usable(ss) && ss.chunks != [] && ss.serverTimeout < ss.clientTimeout
    ensures ReachableOnClocks(ss, st) && st.c.now <= t && st.s.now <= t && st.c.phase == Transfer && st.s.phase == Receiving
    ensures !ServerPatient(ss, st.s, t) && CanComplete(ss, Emptied(st), t)
  {
    hide Leads, Inv, Complete;
    var acts;
    acts, st := InTransfer(ss);
    t := 1 + 1000 * ss.serverTimeout;
    NoStuckStates(ss, st, t);
  }
}
