// Timers and deadlines in every reachable state, for clocks that start above
// zero and never run backwards.

module Clocks {
  import opened Wrappers
  import opened Wire
  import opened SenderWindow
  import opened ClientMachine
  import opened ServerMachine
  import opened Network
  import opened Invariant

  ghost predicate ClientClock(c: Client)
  {
    && 0 < c.lastProgress <= c.now
    && (c.waiting && c.phase in {SynSent, FinWait} ==> c.deadline == c.now + RETRANSMIT_INTERVAL_MS)
    && (c.waiting && c.phase == TimeWait ==> c.deadline == c.now + TIME_WAIT_DURATION_MS)
    && (c.phase == Transfer && c.window.base < c.window.next ==>
          && 0 < c.window.timer <= c.now
          && (c.waiting ==> c.deadline == c.window.timer + RETRANSMIT_INTERVAL_MS && c.now < c.deadline))
  }

  ghost predicate ServerClock(s: Server)
  {
    && 0 < s.lastProgress <= s.now
    && (s.waiting ==> s.deadline == s.now + RETRANSMIT_INTERVAL_MS)
  }

  // A client that has sent and not yet been acknowledged anything has no room left.
  ghost predicate FirstFill(ss: Session, c: Client)
  {
    c.phase == Transfer && c.window.base == First(ss) && c.window.base < c.window.next ==> NoRoom(c)
  }

  ghost predicate ClockInv(ss: Session, st: System)
  {
    ClientClock(st.c) && ServerClock(st.s) && FirstFill(ss, st.c)
  }

  // What a working clock and select add to a step: readings never run
  // backwards, and a wait does not time out before its deadline.
  ghost predicate Timely(st: System, a: Action)
  {
    match a
    case ClientActs(e) => st.c.now <= e.t && (st.c.waiting && e.outcome.Timeout? ==> st.c.deadline <= e.t)
    case ServerActs(e) => st.s.now <= e.t && (st.s.waiting && e.outcome.Timeout? ==> st.s.deadline <= e.t)
    case Lose(_, _) => true
  }

  ghost predicate TimelyRun(ss: Session, st: System, acts: seq<Action>)
    decreases |acts|
  {
    acts == [] || (Enabled(ss, st, acts[0]) && Timely(st, acts[0]) && TimelyRun(ss, Apply(ss, st, acts[0]), acts[1..]))
  }

  lemma RefillTimerRuns(isn: U32, chunks: seq<Chunk>, c: Client, e: ClientEnv)
    requires Fits(isn, chunks) && c.phase == Transfer && !c.waiting && SenderInv(isn, chunks, c) && ClientClock(c)
    ensures var w := Refill(c, e).window; w.base < w.next ==> 0 < w.timer <= c.now
  {
    hide Fill, ChunkRun;
    WindowConsistent(c.window, isn + 1, chunks, c.ackNum, c.connId);
    FillFacts(c.window, c.file, c.ackNum, c.connId, c.now, e.fault);
  }

  lemma TransferHeadTimer(cfg: ClientConfig, isn: U32, chunks: seq<Chunk>, c: Client, e: ClientEnv)
    requires Fits(isn, chunks) && c.phase == Transfer && !c.waiting && ClientInv(isn, chunks, c) && ClientClock(c)
    ensures ClientClock(TransferHead(cfg, c, e).0)
  {
    hide Refill, ChunkRun;
    RefillKeeps(isn, chunks, c, e);
    RefillTimerRuns(isn, chunks, c, e);
  }

  lemma ClientHeadClock(ss: Session, c: Client, e: ClientEnv)
    requires ValidSession(ss) && ClientInv(ss.isn, ss.chunks, c) && ClientClock(c) && !c.waiting && c.now == e.t
    ensures ClientClock(ClientHead(ClientConf(ss), c, e).0)
  {
    hide ChunkRun, TransferHead;
    if c.phase == Transfer { TransferHeadTimer(ClientConf(ss), ss.isn, ss.chunks, c, e); }
  }

  lemma ClientTailClock(cfg: ClientConfig, c: Client, e: ClientEnv)
    requires ClientClock(c) && !c.waiting && c.now == e.t
    ensures ClientClock(ClientTail(cfg, c, e).0)
  {
    hide OnAck;
    if c.phase == Transfer && e.outcome.Recv? { OnAckTimer(c.(addr := e.outcome.src), e.outcome.p.ackNum); }
  }

  lemma ClientStepClock(ss: Session, c: Client, e: ClientEnv)
    requires ValidSession(ss) && ClientInv(ss.isn, ss.chunks, c) && ClientClock(c) && c.now <= e.t
    ensures ClientClock(ClientStep(ClientConf(ss), c, e).0)
  {
    hide ChunkRun, ClientHead, ClientTail;
    if c.waiting {
      ClientTailClock(ClientConf(ss), c.(now := e.t, waiting := false, deadline := 0), e);
    } else {
      ClientHeadClock(ss, c.(now := e.t), e);
    }
  }

  lemma OnAckTimer(c: Client, ackNum: U32)
    requires c.phase == Transfer && !c.waiting && ClientClock(c)
    ensures ClientClock(OnAck(c, ackNum).0)
  {
  }

  lemma TransferHeadFills(cfg: ClientConfig, ss: Session, c: Client, e: ClientEnv)
    requires ValidSession(ss) && c.phase == Transfer && !c.waiting && ClientInv(ss.isn, ss.chunks, c)
    ensures FirstFill(ss, TransferHead(cfg, c, e).0)
  {
    hide Refill, ChunkRun;
    RefillKeeps(ss.isn, ss.chunks, c, e);
  }

  lemma ClientStepFills(ss: Session, c: Client, e: ClientEnv)
    requires ValidSession(ss) && ClientInv(ss.isn, ss.chunks, c) && FirstFill(ss, c)
    ensures FirstFill(ss, ClientStep(ClientConf(ss), c, e).0)
  {
    hide ChunkRun, TransferHead, OnAck;
    if c.phase == Transfer && !c.waiting {
      TransferHeadFills(ClientConf(ss), ss, c.(now := e.t), e);
    } else if c.phase == Transfer && e.outcome.Recv? {
      OnAckFills(ss, c.(now := e.t, waiting := false, deadline := 0, addr := e.outcome.src), e.outcome.p.ackNum);
    }
  }

  lemma OnAckFills(ss: Session, c: Client, ackNum: U32)
    requires FirstFill(ss, c) && c.phase == Transfer && First(ss) <= c.window.base
    ensures FirstFill(ss, OnAck(c, ackNum).0)
  {
  }

  lemma ServerStepClock(cfg: ServerConfig, s: Server, e: ServerEnv)
    requires ServerClock(s) && s.now <= e.t
    ensures ServerClock(ServerStep(cfg, s, e).0)
  {
  }

  lemma ClockStepKeeps(ss: Session, st: System, a: Action)
    requires ValidSession(ss) && Inv(ss, st) && ClockInv(ss, st) && Timely(st, a)
    ensures ClockInv(ss, Apply(ss, st, a))
  {
    hide ClientStep, ServerStep, ClientInv, ServerInv, Cross, ClientClock, ServerClock, FirstFill;
    match a
    case ClientActs(e) =>
      ClientStepClock(ss, st.c, e);
      ClientStepFills(ss, st.c, e);
    case ServerActs(e) => ServerStepClock(ServerConf(ss), st.s, e);
    case Lose(_, _) =>
  }

  lemma {:induction false} ClockRunKeeps(ss: Session, st: System, acts: seq<Action>)
    requires ValidSession(ss) && Inv(ss, st) && ClockInv(ss, st) && TimelyRun(ss, st, acts)
    ensures CanRun(ss, st, acts) && Inv(ss, Run(ss, st, acts)) && ClockInv(ss, Run(ss, st, acts))
    decreases |acts|
  {
    hide Inv, ClockInv, Enabled, Timely, Apply;
    if acts != [] {
      StepKeeps(ss, st, acts[0]);
      ClockStepKeeps(ss, st, acts[0]);
      ClockRunKeeps(ss, Apply(ss, st, acts[0]), acts[1..]);
    }
  }
}
