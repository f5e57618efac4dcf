// The states from which no undisturbed continuation completes a session, and why.

module Stuck {
  import opened Wrappers
  import opened Wire
  import opened SenderWindow
  import opened ClientMachine
  import opened ServerMachine
  import opened Network
  import opened Invariant
  import opened Clocks
  import opened Continuation
  import opened Progress
  import opened Restart

  // ---- the stall ----

  // Nothing to send, the handshake ACK lost for good, and the server still waiting
  // for it or ended by a failure.
  ghost predicate Stalled(ss: Session, st: System)
    requires ValidSession(ss)
  {
    && Inv(ss, st) && ss.chunks == [] && st.c.connId == ss.connId
    && if st.s.phase == Handshaking then forall p :: p in st.toServer ==> p.flags != FLAG_ACK
       else st.s.phase == Finished && st.s.exit != EX_OK
  }

  lemma StalledTransfer(ss: Session, c: Client, e: ClientEnv)
    requires ValidSession(ss) && ClientInv(ss.isn, ss.chunks, c) && Linked(ss, c) && ss.chunks == []
    requires c.phase == Transfer && !c.waiting
    ensures TransferHead(ClientConf(ss), c, e).1 == []
  {
    hide TransferHead, ChunkRun;
    var sent := TransferHead(ClientConf(ss), c, e).1;
    if sent != [] {
      TransferHeadData(ss, c, e, sent[0]);
    }
  }

  lemma StalledClientSends(ss: Session, st: System, e: ClientEnv)
    requires ValidSession(ss) && Stalled(ss, st) && st.s.phase == Handshaking && Enabled(ss, st, ClientActs(e))
    ensures forall p :: p in ClientStep(ClientConf(ss), st.c, e).1 ==> p.flags != FLAG_ACK
  {
    hide ChunkRun, TransferHead, OnAck, Flatten;
    if st.c.phase == Transfer && !st.c.waiting {
      StalledTransfer(ss, st.c.(now := e.t), e);
    }
  }

  // The connection id is drawn once.
  lemma ConnIdStays(ss: Session, st: System, e: ClientEnv)
    requires ValidSession(ss) && Inv(ss, st) && Enabled(ss, st, ClientActs(e)) && st.c.connId == ss.connId
    ensures ClientStep(ClientConf(ss), st.c, e).0.connId == ss.connId
  {
    hide ChunkRun, TransferHead, OnAck, Flatten, UpOk, ServerInv;
    if st.c.phase == Transfer {
      if st.c.waiting {
        if e.outcome.Recv? { OnAckMoves(ClientAt(st.c, e.t).(addr := e.outcome.src), e.outcome.p.ackNum); }
      } else {
        TransferHeadClockwork(ClientConf(ss), st.c.(now := e.t), e);
      }
    }
  }

  lemma StalledStep(ss: Session, st: System, a: Action)
    requires ValidSession(ss) && Stalled(ss, st) && Enabled(ss, st, a)
    ensures Stalled(ss, Apply(ss, st, a))
  {
    hide ChunkRun, ClientStep, Flatten, ClientInv;
    StepKeeps(ss, st, a);
    match a
    case ClientActs(e) =>
      ConnIdStays(ss, st, e);
      if st.s.phase == Handshaking { StalledClientSends(ss, st, e); }
    case ServerActs(e) =>
    case Lose(_, _) =>
  }

  // Whatever happens from there on, in this session or around it, nothing completes.
  lemma {:induction false} StallsForever(ss: Session, st: System, acts: seq<Action>)
    requires ValidSession(ss) && Stalled(ss, st) && CanRun(ss, st, acts)
    ensures Stalled(ss, Run(ss, st, acts)) && !Complete(ss, Run(ss, st, acts))
    decreases |acts|
  {
    hide Inv, Enabled, Apply;
    if acts != [] {
      StalledStep(ss, st, acts[0]);
      StallsForever(ss, Apply(ss, st, acts[0]), acts[1..]);
    }
  }

  // ---- machines past their watchdog ----

  predicate ClientLate(ss: Session, c: Client, t: nat)
  {
    c.lastProgress + 1000 * ss.clientTimeout <= t
  }

  predicate ServerLate(ss: Session, s: Server, t: nat)
  {
    s.lastProgress + 1000 * ss.serverTimeout <= t
  }

  // One side has ended with a failure.
  predicate Failed(st: System)
  {
    (st.c.phase == Done && st.c.exit != EX_OK) || (st.s.phase == Finished && st.s.exit != EX_OK)
  }

  // The next thing the client comes to is a watchdog that has run out.
  predicate ClientGone(ss: Session, st: System, from: nat)
  {
    !Closing(st.c) && !st.c.waiting && ClientLate(ss, st.c, from)
  }

  predicate ServerGone(ss: Session, st: System, from: nat)
  {
    st.s.phase != Finished && !st.s.waiting && ServerLate(ss, st.s, from)
  }

  // The server has left before the client had its FIN+ACK.
  predicate Orphaned(st: System)
  {
    st.s.phase == Finished && !Closing(st.c) && st.toClient == {}
  }

  // One undisturbed action, not before from.
  ghost predicate Next(ss: Session, st: System, from: nat, a: Action)
  {
    !a.Lose? && Enabled(ss, st, a) && Timely(st, a) && Undisturbed(st, a) && from <= Time(a)
  }

  // What no client does unless it is handed a packet: mark progress, learn a new address, or end well.
  lemma ClientUnfed(cfg: ClientConfig, c: Client, e: ClientEnv)
    requires !Closing(c) && (c.waiting ==> e.outcome.Timeout? || e.outcome.WaitError?)
    ensures var c' := ClientStep(cfg, c, e).0;
            && c'.phase != TimeWait && (c'.phase == Done ==> c'.exit != EX_OK)
            && c'.addr == c.addr && c'.lastProgress == c.lastProgress
            && (c'.phase == FinWait ==> c.phase in {Transfer, FinWait})
  {
    hide TransferHead;
    if c.phase == Transfer && !c.waiting {
      TransferHeadPhases(cfg, c.(now := e.t), e);
      TransferHeadClockwork(cfg, c.(now := e.t), e);
    }
  }

  // Nor does a server before LAST_ACK, which also sends nothing.
  lemma ServerUnfed(cfg: ServerConfig, s: Server, e: ServerEnv)
    requires s.phase !in {LastAck, Finished} && (s.waiting ==> e.outcome.Timeout? || e.outcome.WaitError?)
    ensures var (s', sent) := ServerStep(cfg, s, e);
            && sent == [] && (if s'.phase == Finished then s'.exit != EX_OK else s'.phase == s.phase)
            && s'.lastProgress == s.lastProgress && s'.ackNum == s.ackNum
  {
  }

  lemma FailedStep(ss: Session, st: System, from: nat, a: Action)
    requires Next(ss, st, from, a) && Failed(st)
    ensures Failed(Apply(ss, st, a))
  {
    hide ClientStep, ServerStep;
  }

  lemma ClientGoneStep(ss: Session, st: System, from: nat, a: Action)
    requires Next(ss, st, from, a) && ClientGone(ss, st, from) && 0 < st.c.lastProgress <= st.c.now && ss.clientTimeout > 0
    ensures Failed(Apply(ss, st, a)) || ClientGone(ss, Apply(ss, st, a), Time(a))
  {
    hide ServerStep, Refill;
    if a.ClientActs? { ClientUnfed(ClientConf(ss), st.c, a.ce); }
  }

  lemma ServerGoneStep(ss: Session, st: System, from: nat, a: Action)
    requires Next(ss, st, from, a) && ServerGone(ss, st, from) && 0 < st.s.lastProgress <= st.s.now && ss.serverTimeout > 0
    ensures Failed(Apply(ss, st, a)) || ServerGone(ss, Apply(ss, st, a), Time(a))
  {
    hide ClientStep;
  }

  lemma OrphanedStep(ss: Session, st: System, from: nat, a: Action)
    requires Next(ss, st, from, a) && Orphaned(st)
    ensures Failed(Apply(ss, st, a)) || Orphaned(Apply(ss, st, a))
  {
    hide ServerStep, ClientStep;
    if a.ClientActs? { ClientUnfed(ClientConf(ss), st.c, a.ce); }
  }

  // ---- nothing in transit, and nothing to come ----

  // Up to instant due the client sends nothing, and then it looks at its watchdog first.
  predicate Silent(c: Client, from: nat, due: nat)
  {
    match c.phase
    case SynSent => if c.waiting then due <= Max(from, c.deadline) else due <= from + RETRANSMIT_INTERVAL_MS
    case Transfer =>
      && c.window.base < c.window.next && !NewData(c) && 0 < c.window.timer
      && due <= Max(from, c.window.timer + RETRANSMIT_INTERVAL_MS)
    case FinWait => c.waiting && due <= Max(from, c.deadline)
    case _ => false
  }

  // The client has lost its peer's address, or it is silent until its watchdog
  // ends it; and the server does not speak unless spoken to.
  ghost predicate Mute(ss: Session, st: System, from: nat, due: nat)
  {
    && st.toServer == {} && st.toClient == {} && st.s.phase !in {LastAck, Finished} && !Closing(st.c)
    && (st.c.addr == Stranger || (Silent(st.c, from, due) && ClientLate(ss, st.c, due)))
  }

  // A turn of the transfer loop with nothing new to send.
  lemma SilentHead(cfg: ClientConfig, c: Client, e: ClientEnv)
    requires c.phase == Transfer && !c.waiting && c.window.base < c.window.next && !NewData(c) && 0 < c.window.timer <= c.now
    ensures var (c', sent) := TransferHead(cfg, c, e);
            if c'.phase == Done then sent == [] && c'.exit != EX_OK
            else
              && !Expired(c.lastProgress, c.now, cfg.timeout) && !NewData(c') && c'.phase == Transfer
              && if c.now < c.window.timer + RETRANSMIT_INTERVAL_MS
                 then sent == [] && c' == c.(waiting := true, deadline := c'.deadline, eof := c'.eof)
                 else c' == c.(window := c.window.(timer := c.now), eof := c'.eof)
  {
    assert c.eof || c.window.next == c.window.base + WINDOW_SIZE || c.file == [];
  }

  lemma SilentStep(ss: Session, c: Client, from: nat, due: nat, e: ClientEnv)
    requires Silent(c, from, due) && ClientLate(ss, c, due) && ss.clientTimeout > 0 && 0 < c.lastProgress <= c.now
    requires c.phase == Transfer ==> c.window.timer <= c.now
    requires from <= e.t && c.now <= e.t
    requires c.waiting ==> (e.outcome.Timeout? && c.deadline <= e.t) || e.outcome.WaitError?
    ensures var (c', sent) := ClientStep(ClientConf(ss), c, e);
            sent == [] && if c'.phase == Done then c'.exit != EX_OK else Silent(c', e.t, due) && ClientLate(ss, c', due)
  {
    hide TransferHead;
    if c.phase == Transfer && !c.waiting { SilentHead(ClientConf(ss), c.(now := e.t), e); }
  }

  lemma MuteStep(ss: Session, st: System, from: nat, due: nat, a: Action)
    requires ValidSession(ss) && Sound(ss, st) && ss.clientTimeout > 0
    requires Next(ss, st, from, a) && Mute(ss, st, from, due)
    ensures Failed(Apply(ss, st, a)) || Mute(ss, Apply(ss, st, a), Time(a), due)
  {
    hide ClientStep, ServerStep, Inv, Silent;
    match a
    case ClientActs(e) =>
      ClientUnfed(ClientConf(ss), st.c, e);
      if st.c.addr == Peer {
        SilentTimer(st.c, from, due);
        SilentStep(ss, st.c, from, due, e);
      }
    case ServerActs(e) =>
      ServerUnfed(ServerConf(ss), st.s, e);
      SilentLater(st.c, from, e.t, due);
  }

  lemma SilentLater(c: Client, from: nat, later: nat, due: nat)
    requires from <= later
    ensures Silent(c, from, due) ==> Silent(c, later, due)
  {
  }

  lemma SilentTimer(c: Client, from: nat, due: nat)
    requires ClientClock(c) && Silent(c, from, due)
    ensures c.phase == Transfer ==> c.window.timer <= c.now
  {
  }

  // ---- a server that has to pass its watchdog to get what it has asked for ----

  // In HANDSHAKE it only answers the next SYN, and that comes too late.
  ghost predicate HandshakeLate(ss: Session, st: System, from: nat, due: nat)
  {
    && st.s.phase == Handshaking && st.c.phase in {Closed, SynSent} && st.toClient == {} && ServerLate(ss, st.s, due)
    && (st.toServer == {} || due <= from)
    && (due <= from || (st.c.phase == SynSent && due <= if st.c.waiting then st.c.deadline else from + RETRANSMIT_INTERVAL_MS))
  }

  lemma HandshakeLateClient(ss: Session, st: System, from: nat, due: nat, e: ClientEnv)
    requires Next(ss, st, from, ClientActs(e)) && HandshakeLate(ss, st, from, due)
    ensures var st' := Apply(ss, st, ClientActs(e)); Failed(st') || HandshakeLate(ss, st', e.t, due)
  {
    ClientUnfed(ClientConf(ss), st.c, e);
  }

  lemma HandshakeLateServer(ss: Session, st: System, from: nat, due: nat, e: ServerEnv)
    requires ValidSession(ss) && Inv(ss, st)
    requires Next(ss, st, from, ServerActs(e)) && HandshakeLate(ss, st, from, due)
    ensures var st' := Apply(ss, st, ServerActs(e)); Failed(st') || HandshakeLate(ss, st', e.t, due) || ServerGone(ss, st', e.t)
  {
    hide ChunkRun, Flatten, DownOk;
  }

  // In ESTABLISHED it has every chunk sent so far, and only answers the copies.
  ghost predicate TransferLate(ss: Session, st: System, from: nat, due: nat)
  {
    && st.s.phase == Receiving && st.c.phase == Transfer && st.c.window.base < st.c.window.next == st.s.ackNum
    && !NewData(st.c) && 0 < st.c.window.timer && st.toClient == {} && ServerLate(ss, st.s, due)
    && (st.toServer == {} || due <= from) && due <= Max(from, st.c.window.timer + RETRANSMIT_INTERVAL_MS)
  }

  lemma TransferLateClient(ss: Session, st: System, from: nat, due: nat, e: ClientEnv)
    requires ClientClock(st.c) && Next(ss, st, from, ClientActs(e)) && TransferLate(ss, st, from, due)
    ensures var st' := Apply(ss, st, ClientActs(e)); Failed(st') || TransferLate(ss, st', e.t, due)
  {
    hide TransferHead;
    if !st.c.waiting { SilentHead(ClientConf(ss), st.c.(now := e.t), e); }
  }

  lemma TransferLateServer(ss: Session, st: System, from: nat, due: nat, e: ServerEnv)
    requires ValidSession(ss) && Inv(ss, st)
    requires Next(ss, st, from, ServerActs(e)) && TransferLate(ss, st, from, due)
    ensures var st' := Apply(ss, st, ServerActs(e)); Failed(st') || TransferLate(ss, st', e.t, due) || ServerGone(ss, st', e.t)
  {
    hide ChunkRun, Flatten, DownOk;
  }

  // In LAST_ACK, with the client still waiting for FIN+ACK. The client's next
  // FIN, due at dueC, finds no one or comes too late, and so does the server's
  // next FIN+ACK, due at dueS.
  ghost predicate ClosingLate(ss: Session, st: System, from: nat, dueC: nat, dueS: nat)
  {
    && st.s.phase == LastAck && st.c.phase == FinWait && st.toClient == {}
    && (st.c.addr == Stranger || ClientLate(ss, st.c, dueC) || ServerLate(ss, st.s, dueC))
    && (st.s.addr == Stranger || ServerLate(ss, st.s, dueS))
    && (st.toServer == {} || (dueC <= from && ServerLate(ss, st.s, dueC)))
    && (dueC <= from || (st.c.waiting && dueC <= st.c.deadline))
    && (dueS <= from || dueS <= if st.s.waiting then st.s.deadline else from + RETRANSMIT_INTERVAL_MS)
  }

  lemma ClosingLateClient(ss: Session, st: System, from: nat, dueC: nat, dueS: nat, e: ClientEnv)
    requires ClientClock(st.c) && ss.clientTimeout > 0
    requires Next(ss, st, from, ClientActs(e)) && ClosingLate(ss, st, from, dueC, dueS)
    ensures var st' := Apply(ss, st, ClientActs(e)); Failed(st') || ClosingLate(ss, st', e.t, dueC, dueS)
  {
    ClientUnfed(ClientConf(ss), st.c, e);
  }

  lemma ClosingLateServer(ss: Session, st: System, from: nat, dueC: nat, dueS: nat, e: ServerEnv)
    requires ValidSession(ss) && Inv(ss, st) && ServerClock(st.s) && ss.serverTimeout > 0
    requires Next(ss, st, from, ServerActs(e)) && ClosingLate(ss, st, from, dueC, dueS)
    ensures var st' := Apply(ss, st, ServerActs(e));
            Failed(st') || Orphaned(st') || ClosingLate(ss, st', e.t, dueC, dueS) || ServerGone(ss, st', e.t)
  {
    hide ChunkRun, Flatten, DownOk;
  }

  // ---- all of them ----

  ghost predicate Hopeless(ss: Session, st: System, from: nat, dueC: nat, dueS: nat)
    requires ValidSession(ss)
  {
    || Failed(st) || Orphaned(st) || Stalled(ss, st)
    || ClientGone(ss, st, from) || ServerGone(ss, st, from) || Mute(ss, st, from, dueC)
    || HandshakeLate(ss, st, from, dueC) || TransferLate(ss, st, from, dueC) || ClosingLate(ss, st, from, dueC, dueS)
  }

  lemma HopelessStep(ss: Session, st: System, from: nat, dueC: nat, dueS: nat, a: Action)
    requires ValidSession(ss) && Sound(ss, st) && ss.clientTimeout > 0 && ss.serverTimeout > 0
    requires Next(ss, st, from, a) && Hopeless(ss, st, from, dueC, dueS)
    ensures Hopeless(ss, Apply(ss, st, a), Time(a), dueC, dueS)
  {
    hide Inv, Apply, Failed, Orphaned, Stalled, ClientGone, ServerGone, Mute, HandshakeLate, TransferLate, ClosingLate;
    if Failed(st) { FailedStep(ss, st, from, a); }
    else if Orphaned(st) { OrphanedStep(ss, st, from, a); }
    else if Stalled(ss, st) { StalledStep(ss, st, a); }
    else if ClientGone(ss, st, from) { ClientGoneStep(ss, st, from, a); }
    else if ServerGone(ss, st, from) { ServerGoneStep(ss, st, from, a); }
    else if Mute(ss, st, from, dueC) { MuteStep(ss, st, from, dueC, a); }
    else {
      match a
      case ClientActs(e) =>
        if HandshakeLate(ss, st, from, dueC) { HandshakeLateClient(ss, st, from, dueC, e); }
        else if TransferLate(ss, st, from, dueC) { TransferLateClient(ss, st, from, dueC, e); }
        else { ClosingLateClient(ss, st, from, dueC, dueS, e); }
      case ServerActs(e) =>
        if HandshakeLate(ss, st, from, dueC) { HandshakeLateServer(ss, st, from, dueC, e); }
        else if TransferLate(ss, st, from, dueC) { TransferLateServer(ss, st, from, dueC, e); }
        else { ClosingLateServer(ss, st, from, dueC, dueS, e); }
    }
  }

  lemma HopelessEnd(ss: Session, st: System, from: nat, dueC: nat, dueS: nat)
    requires ValidSession(ss) && Hopeless(ss, st, from, dueC, dueS)
    ensures !Complete(ss, st)
  {
    hide Inv, Silent, ServerLate, ClientLate;
  }

  lemma {:induction false} HopelessRun(ss: Session, st: System, acts: seq<Action>, from: nat, dueC: nat, dueS: nat, st': System, to: nat)
    requires ValidSession(ss) && Sound(ss, st) && ss.clientTimeout > 0 && ss.serverTimeout > 0
    requires Hopeless(ss, st, from, dueC, dueS) && Leads(ss, st, acts, from, st', to)
    ensures !Complete(ss, st')
    decreases |acts|
  {
    hide Inv, ClockInv, Enabled, Timely, Undisturbed, Apply, Hopeless, Complete;
    if acts == [] {
      HopelessEnd(ss, st, from, dueC, dueS);
    } else {
      StepKeeps(ss, st, acts[0]);
      ClockStepKeeps(ss, st, acts[0]);
      HopelessStep(ss, st, from, dueC, dueS, acts[0]);
      HopelessRun(ss, Apply(ss, st, acts[0]), acts[1..], Time(acts[0]), dueC, dueS, st', to);
    }
  }
}
