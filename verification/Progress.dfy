// No stuck state: from every reachable state in which neither side has given
// up there is a way to the end, built from retransmissions alone.

module Progress {
  import opened Wrappers
  import opened Wire
  import opened SenderWindow
  import opened ClientMachine
  import opened ServerMachine
  import opened Network
  import opened Invariant
  import opened Clocks
  import opened Continuation

  // ---- the packets the rest of a session needs ----

  function SynPacket(ss: Session): Packet
  {
    Packet(ss.isn, 0, 0, FLAG_SYN, [])
  }

  function ClientPacket(ss: Session, seqNum: U32, flags: Byte): Packet
    requires ss.serverIsn < ISN_LIMIT
  {
    Packet(seqNum, ss.serverIsn + 1, ss.connId, flags, [])
  }

  function Data(ss: Session, i: U32): Packet
    requires ss.serverIsn < ISN_LIMIT && First(ss) <= i < End(ss)
  {
    DataPacket(i, ss.serverIsn + 1, ss.connId, ss.chunks[i - First(ss)])
  }

  function ServerPacket(ss: Session, flags: Byte, ackNum: U32): Packet
  {
    Packet(ss.serverIsn, ackNum, ss.connId, flags, [])
  }

  // ---- states the rest of the session flows from without further waiting ----

  // Neither side has given up: no failure so far, and the server has not left
  // before the client had its FIN+ACK.
  ghost predicate Alive(st: System)
  {
    && (st.c.phase == Done ==> st.c.exit == EX_OK)
    && (st.s.phase == Finished ==> st.s.exit == EX_OK && Closing(st.c))
  }

  ghost predicate ClientPatient(ss: Session, c: Client, t: nat)
  {
    !Expired(c.lastProgress, t, ss.clientTimeout)
  }

  ghost predicate ServerPatient(ss: Session, s: Server, t: nat)
  {
    !Expired(s.lastProgress, t, ss.serverTimeout)
  }

  // Whatever the client has in flight only draws an answer from the server, which marks no progress for it.
  ghost predicate OnlyAnswers(st: System)
  {
    || (st.c.phase in {Closed, SynSent} && st.s.phase == Handshaking)
    || (st.c.phase == Transfer && st.s.phase == Receiving && st.c.window.base < st.c.window.next == st.s.ackNum)
    || (st.c.phase == FinWait && st.s.phase == LastAck)
  }

  // At instant t the client sends to its peer, no watchdog of its own fires,
  // and the server lasts at least until the next packet it marks progress for.
  ghost predicate OnCourse(ss: Session, st: System, t: nat)
  {
    && (!Closing(st.c) ==> st.c.addr == Peer && ClientPatient(ss, st.c, t))
    && (st.s.phase != Finished ==> ServerPatient(ss, st.s, t) || (st.s.waiting && !OnlyAnswers(st)))
  }

  // The handshake ACK is never resent, so a session with nothing to send hangs on it.
  ghost predicate Recoverable(ss: Session, st: System)
  {
    ss.chunks != [] || !(st.c.connId == ss.connId && st.s.phase == Handshaking)
  }

  // What the client has last sent is on its way, and its timer has just been started.
  ghost predicate InFlight(ss: Session, st: System, t: nat)
    requires ss.serverIsn < ISN_LIMIT
  {
    && (st.c.phase == SynSent ==> SynPacket(ss) in st.toServer)
    && (st.c.phase == Transfer ==>
          && (st.c.window.base < st.c.window.next ==> t < st.c.window.timer + RETRANSMIT_INTERVAL_MS)
          && (forall i: U32 :: st.c.window.base <= i < st.c.window.next && First(ss) <= i < End(ss) ==> Data(ss, i) in st.toServer))
    && (st.c.phase == FinWait ==> !st.c.waiting)
    && (st.c.phase == TimeWait && st.s.phase == LastAck ==>
          End(ss) + 1 < 0x1_0000_0000 && ServerPacket(ss, FLAG_FIN_ACK, End(ss) + 1) in st.toClient)
  }

  ghost predicate Flowing(ss: Session, st: System, t: nat)
    requires ValidSession(ss)
  {
    && Sound(ss, st) && Alive(st) && OnCourse(ss, st, t) && Recoverable(ss, st) && InFlight(ss, st, t)
    && st.c.phase != Done && st.c.now <= t && st.s.now <= t && ss.clientTimeout > 0 && ss.serverTimeout > 0
  }

  // ---- the measure ----

  function ClientRank(c: Client): nat
  {
    match c.phase
    case Closed => 6 case SynSent => 5 case Established => 4 case Transfer => 3
    case FinWait => 2 case TimeWait => 1 case Done => 0
  }

  function ServerRank(s: Server): nat
  {
    match s.phase
    case Listening => 4 case Handshaking => 3 case Receiving => 2 case LastAck => 1 case Finished => 0
  }

  function Unacked(ss: Session, c: Client): nat
  {
    if c.phase == Transfer && c.window.base <= End(ss) then End(ss) - c.window.base else 0
  }

  function Unwritten(ss: Session, s: Server): nat
  {
    if s.ackNum <= End(ss) then End(ss) - s.ackNum else 0
  }

  function Turn(c: Client): nat
  {
    if c.waiting then 0 else 1
  }

  // The measure decreases lexicographically.
  ghost predicate Closer(ss: Session, st: System, st': System)
  {
    || ClientRank(st'.c) < ClientRank(st.c)
    || (ClientRank(st'.c) == ClientRank(st.c) &&
        (|| ServerRank(st'.s) < ServerRank(st.s)
         || (ServerRank(st'.s) == ServerRank(st.s) &&
             (|| Unacked(ss, st'.c) < Unacked(ss, st.c)
              || (Unacked(ss, st'.c) == Unacked(ss, st.c) &&
                  (|| Unwritten(ss, st'.s) < Unwritten(ss, st.s)
                   || (Unwritten(ss, st'.s) == Unwritten(ss, st.s) && Turn(st'.c) < Turn(st.c))))))))
  }

  // ---- one stretch of the flow, by phase ----

  lemma HeadFirst(ss: Session, st: System)
    requires ValidSession(ss) && Sound(ss, st)
    ensures st.c.phase in {Closed, Established} ==> !st.c.waiting
  {
    hide ChunkRun, ServerInv, Cross, ClockInv, UpOk, DownOk;
  }

  lemma FromClosed(ss: Session, st: System, t: nat) returns (acts: seq<Action>, st': System)
    requires ValidSession(ss) && Flowing(ss, st, t) && st.c.phase == Closed
    ensures Leads(ss, st, acts, t, st', t) && Flowing(ss, st', t) && Closer(ss, st, st')
  {
    hide Inv, ClockInv, Leads;
    HeadFirst(ss, st);
    acts, st' := ClientTurns(ss, st, t);
  }

  lemma FromListening(ss: Session, st: System, t: nat) returns (acts: seq<Action>, st': System)
    requires ValidSession(ss) && Flowing(ss, st, t) && st.c.phase == SynSent && st.s.phase == Listening
    ensures Leads(ss, st, acts, t, st', t) && Flowing(ss, st', t) && Closer(ss, st, st')
  {
    hide ChunkRun, Leads;
    acts, st' := ServerTakes(ss, st, t, SynPacket(ss));
  }

  // SYN+ACK, taken by a waiting client, and the handshake ACK.
  lemma ShakeHands(ss: Session, st: System, t: nat) returns (acts: seq<Action>, st': System)
    requires ValidSession(ss) && Flowing(ss, st, t) && st.c.phase == SynSent && st.c.waiting && st.s.phase == Handshaking
    requires ServerPacket(ss, FLAG_SYN_ACK, First(ss)) in st.toClient
    ensures Leads(ss, st, acts, t, st', t) && Flowing(ss, st', t) && st'.c.phase == Established && st'.s.phase == Receiving
  {
    hide ChunkRun, Leads, UpOk, DownOk, Flatten;
    var a1, st1 := ClientTakes(ss, st, t, ServerPacket(ss, FLAG_SYN_ACK, First(ss)));
    assert ClientPacket(ss, First(ss), FLAG_ACK) in st1.toServer;
    var a2, st2 := ServerTakes(ss, st1, t, ClientPacket(ss, First(ss), FLAG_ACK));
    Compose(ss, st, a1, t, st1, t, a2, st2, t);
    acts, st' := a1 + a2, st2;
  }

  // The retransmitted SYN draws another SYN+ACK, and that the handshake ACK.
  lemma FromHandshaking(ss: Session, st: System, t: nat) returns (acts: seq<Action>, st': System)
    requires ValidSession(ss) && Flowing(ss, st, t) && st.c.phase == SynSent && st.s.phase == Handshaking
    ensures Leads(ss, st, acts, t, st', t) && Flowing(ss, st', t) && Closer(ss, st, st')
  {
    hide ChunkRun, Leads, UpOk, DownOk, Flatten;
    var a1, st1 := ServerTakes(ss, st, t, SynPacket(ss));
    assert ServerPacket(ss, FLAG_SYN_ACK, First(ss)) in st1.toClient;
    var a2, st2 := [], st1;
    if !st1.c.waiting {
      a2, st2 := ClientTurns(ss, st1, t);
    } else {
      NoStep(ss, st1, t);
    }
    var a3, st3 := ShakeHands(ss, st2, t);
    Compose(ss, st, a1, t, st1, t, a2, st2, t);
    Compose(ss, st, a1 + a2, t, st2, t, a3, st3, t);
    acts, st' := a1 + a2 + a3, st3;
  }

  lemma FromEstablished(ss: Session, st: System, t: nat) returns (acts: seq<Action>, st': System)
    requires ValidSession(ss) && Flowing(ss, st, t) && st.c.phase == Established
    ensures Leads(ss, st, acts, t, st', t) && Flowing(ss, st', t) && Closer(ss, st, st')
  {
    hide Inv, ClockInv, Leads;
    HeadFirst(ss, st);
    acts, st' := ClientTurns(ss, st, t);
  }

  // ---- one turn of the transfer loop, no read failing ----

  // The data packets from .. to - 1 are among ps.
  ghost predicate Sends(ss: Session, ps: seq<Packet>, from: nat, to: nat)
    requires ss.serverIsn < ISN_LIMIT
  {
    First(ss) <= from && to <= End(ss) && forall i: U32 :: from <= i < to ==> Data(ss, i) in ps
  }

  lemma ChunkRunSends(ss: Session, ps: seq<Packet>, from: nat, all: seq<Packet>)
    requires ValidSession(ss) && ChunkRun(ps, from, First(ss), ss.chunks, ss.serverIsn + 1, ss.connId)
    requires forall p :: p in ps ==> p in all
    ensures Sends(ss, all, from, from + |ps|)
  {
    forall i: U32 | from <= i < from + |ps| ensures Data(ss, i) in all {
      assert ps[i - from] == Data(ss, i);
    }
  }

  lemma RefillFaultless(isn: U32, chunks: seq<Chunk>, c: Client, e: ClientEnv)
    requires Fits(isn, chunks) && SenderInv(isn, chunks, c) && e.fault == None
    ensures var r := Refill(c, e);
            && r.status != ReadFailed
            && r.window.timer == if c.window.base == c.window.next < r.window.next then c.now else c.window.timer
  {
    hide Fill, ChunkRun;
    WindowConsistent(c.window, isn + 1, chunks, c.ackNum, c.connId);
    FillFacts(c.window, c.file, c.ackNum, c.connId, c.now, e.fault);
  }

  // It either leaves for FIN_WAIT with nothing pending, or it has sent every
  // new packet and goes on: retransmitting the whole window if the timer had
  // run out, waiting for it otherwise.
  lemma TransferTurn(ss: Session, c: Client, t: nat)
    requires ValidSession(ss) && ClientInv(ss.isn, ss.chunks, c) && ClientClock(c) && Linked(ss, c)
    requires c.phase == Transfer && !c.waiting && c.now == t && !Expired(c.lastProgress, t, ss.clientTimeout)
    ensures var (c', sent) := TransferHead(ClientConf(ss), c, CE(t, Timeout));
            if c'.phase == FinWait then !c'.waiting && c.window.base == c.window.next
            else
              && c'.phase == Transfer && c'.window.base == c.window.base < c'.window.next && c.window.next <= c'.window.next
              && Sends(ss, sent, c.window.next, c'.window.next)
              && (if c.window.base < c.window.next && t >= c.window.timer + RETRANSMIT_INTERVAL_MS
                  then !c'.waiting && c'.window.timer == t && Sends(ss, sent, c'.window.base, c'.window.next)
                  else c'.waiting && t < c'.window.timer + RETRANSMIT_INTERVAL_MS
                       && (c.window.base < c.window.next ==> c'.window.timer == c.window.timer))
  {
    hide Refill, ChunkRun;
    var e := CE(t, Timeout);
    var (c', sent) := TransferHead(ClientConf(ss), c, e);
    var r := Refill(c, e);
    RefillKeeps(ss.isn, ss.chunks, c, e);
    RefillFaultless(ss.isn, ss.chunks, c, e);
    if c'.phase != FinWait {
      ChunkRunSends(ss, r.sent, c.window.next, sent);
      if !c'.waiting {
        ChunkRunSends(ss, r.window.pending, r.window.base, sent);
      }
    }
  }

  lemma InFlightGrows(ss: Session, st: System, st': System, t: nat, sent: seq<Packet>)
    requires ss.serverIsn < ISN_LIMIT && InFlight(ss, st, t) && st.c.phase == Transfer
    requires st'.toServer == st.toServer + Emitted(Peer, sent)
    requires st'.c.phase == Transfer ==>
               && st'.c.window.base == st.c.window.base && Sends(ss, sent, st.c.window.next, st'.c.window.next)
               && (st'.c.window.base < st'.c.window.next ==> t < st'.c.window.timer + RETRANSMIT_INTERVAL_MS)
    requires (st'.c.phase == Transfer || (st'.c.phase == FinWait && !st'.c.waiting))
    ensures InFlight(ss, st', t)
  {
  }

  lemma FlowingTurn(ss: Session, st: System, t: nat)
    requires ValidSession(ss) && Flowing(ss, st, t) && st.c.phase == Transfer && !st.c.waiting
    ensures var (c', sent) := TransferHead(ClientConf(ss), st.c.(now := t), CE(t, Timeout));
            && c'.lastProgress == st.c.lastProgress && c'.now == t && c'.connId == st.c.connId && c'.addr == st.c.addr
            && c'.window.base == st.c.window.base
            && st.s.phase != LastAck && st.s.ackNum <= st.c.window.next <= c'.window.next
            && if c'.phase == FinWait then !c'.waiting
               else c'.phase == Transfer && c'.waiting && t < c'.window.timer + RETRANSMIT_INTERVAL_MS
                    && Sends(ss, sent, st.c.window.next, c'.window.next)
  {
    hide ChunkRun, TransferHead, UpOk, DownOk, Sends, Flatten;
    var c := st.c.(now := t);
    TransferTurn(ss, c, t);
    TransferHeadKeeps(ClientConf(ss), ss.isn, ss.chunks, c, CE(t, Timeout));
    TransferHeadClockwork(ClientConf(ss), c, CE(t, Timeout));
  }

  // In the flow the timer has just been started, so a turn ends waiting or in FIN_WAIT.
  lemma FromTransferTurn(ss: Session, st: System, t: nat) returns (acts: seq<Action>, st': System)
    requires ValidSession(ss) && Flowing(ss, st, t) && st.c.phase == Transfer && !st.c.waiting
    ensures Leads(ss, st, acts, t, st', t) && Flowing(ss, st', t) && Closer(ss, st, st')
  {
    hide Inv, ClockInv, Leads, TransferHead, Sends, InFlight;
    acts, st' := ClientTurns(ss, st, t);
    FlowingTurn(ss, st, t);
    InFlightGrows(ss, st, st', t, TransferHead(ClientConf(ss), st.c.(now := t), CE(t, Timeout)).1);
  }

  // The server takes in DATA and answers with its count.
  lemma FromTransferData(ss: Session, st: System, t: nat) returns (acts: seq<Action>, st': System)
    requires ValidSession(ss) && Flowing(ss, st, t) && st.c.phase == Transfer && st.c.waiting
    requires st.s.phase == Handshaking || st.s.ackNum < st.c.window.next
    ensures Leads(ss, st, acts, t, st', t) && Flowing(ss, st', t) && Closer(ss, st, st')
  {
    hide ChunkRun, Leads, UpOk, DownOk, Flatten;
    acts, st' := ServerTakes(ss, st, t, Data(ss, st.s.ackNum));
  }

  // Everything sent is written: one more DATA draws the ACK that empties the window.
  lemma FromTransferAck(ss: Session, st: System, t: nat) returns (acts: seq<Action>, st': System)
    requires ValidSession(ss) && Flowing(ss, st, t) && st.c.phase == Transfer && st.c.waiting
    requires st.s.phase == Receiving && st.s.ackNum == st.c.window.next
    ensures Leads(ss, st, acts, t, st', t) && Flowing(ss, st', t) && Closer(ss, st, st')
  {
    hide ChunkRun, Leads, UpOk, DownOk, Flatten, OnAck;
    var a1, st1 := ServerTakes(ss, st, t, Data(ss, st.c.window.next - 1));
    var ack := ServerPacket(ss, FLAG_ACK, st.c.window.next);
    assert ack in st1.toClient;
    var a2, st2 := ClientTakes(ss, st1, t, ack);
    AckEmptiesWindow(ClientAt(st.c, t).(addr := Peer));
    Compose(ss, st, a1, t, st1, t, a2, st2, t);
    acts, st' := a1 + a2, st2;
  }

  lemma AckEmptiesWindow(c: Client)
    requires c.window.base < c.window.next
    ensures var c' := OnAck(c, c.window.next).0;
            && c'.phase == c.phase && c'.window.base == c'.window.next == c.window.next && !Expired(c'.lastProgress, c.now, 1)
            && c'.now == c.now && c'.waiting == c.waiting && c'.exit == c.exit && c'.connId == c.connId && c'.addr == c.addr
  {
  }

  // FIN, FIN+ACK, and the client is in TIME_WAIT.
  lemma FromFinWait(ss: Session, st: System, t: nat) returns (acts: seq<Action>, st': System)
    requires ValidSession(ss) && Flowing(ss, st, t) && st.c.phase == FinWait
    ensures Leads(ss, st, acts, t, st', t) && Flowing(ss, st', t) && Closer(ss, st, st')
  {
    hide ChunkRun, Leads, UpOk, DownOk, Flatten;
    var a1, st1 := ClientTurns(ss, st, t);
    var fin := ClientPacket(ss, End(ss), FLAG_FIN);
    assert fin in st1.toServer;
    var a2, st2 := ServerTakes(ss, st1, t, fin);
    var finAck := ServerPacket(ss, FLAG_FIN_ACK, End(ss) + 1);
    assert finAck in st2.toClient;
    var a3, st3 := ClientTakes(ss, st2, t, finAck);
    Compose(ss, st, a1, t, st1, t, a2, st2, t);
    Compose(ss, st, a1 + a2, t, st2, t, a3, st3, t);
    acts, st' := a1 + a2 + a3, st3;
  }

  // The answer to FIN+ACK closes the server.
  lemma FromTimeWait(ss: Session, st: System, t: nat) returns (acts: seq<Action>, st': System)
    requires ValidSession(ss) && Flowing(ss, st, t) && st.c.phase == TimeWait && st.s.phase == LastAck
    ensures Leads(ss, st, acts, t, st', t) && Flowing(ss, st', t) && Closer(ss, st, st')
  {
    hide ChunkRun, Leads, UpOk, DownOk, Flatten;
    var a1, st1 := [], st;
    if !st.c.waiting {
      a1, st1 := ClientTurns(ss, st, t);
    } else {
      NoStep(ss, st, t);
    }
    var a2, st2 := ClientTakes(ss, st1, t, ServerPacket(ss, FLAG_FIN_ACK, End(ss) + 1));
    var last := ClientPacket(ss, End(ss) + 1, FLAG_ACK);
    assert last in st2.toServer;
    var a3, st3 := ServerTakes(ss, st2, t, last);
    Compose(ss, st, a1, t, st1, t, a2, st2, t);
    Compose(ss, st, a1 + a2, t, st2, t, a3, st3, t);
    acts, st' := a1 + a2 + a3, st3;
  }

  // ---- the whole flow ----

  lemma FlowStep(ss: Session, st: System, t: nat) returns (acts: seq<Action>, st': System)
    requires ValidSession(ss) && Flowing(ss, st, t) && !(st.c.phase == TimeWait && st.s.phase == Finished)
    ensures Leads(ss, st, acts, t, st', t) && Flowing(ss, st', t) && Closer(ss, st, st')
  {
    hide Leads, Closer, ChunkRun, UpOk, DownOk, Flatten, InFlight, OnCourse;
    match st.c.phase
    case Closed => acts, st' := FromClosed(ss, st, t);
    case SynSent =>
      if st.s.phase == Listening {
        acts, st' := FromListening(ss, st, t);
      } else {
        acts, st' := FromHandshaking(ss, st, t);
      }
    case Established => acts, st' := FromEstablished(ss, st, t);
    case Transfer =>
      if !st.c.waiting {
        acts, st' := FromTransferTurn(ss, st, t);
      } else if st.s.phase == Handshaking || st.s.ackNum < st.c.window.next {
        acts, st' := FromTransferData(ss, st, t);
      } else {
        acts, st' := FromTransferAck(ss, st, t);
      }
    case FinWait => acts, st' := FromFinWait(ss, st, t);
    case TimeWait => acts, st' := FromTimeWait(ss, st, t);
  }

  // Once in flight, the session runs to both ends at a single instant.
  lemma {:induction false} Flow(ss: Session, st: System, t: nat) returns (acts: seq<Action>, st': System)
    requires ValidSession(ss) && Flowing(ss, st, t)
    ensures Leads(ss, st, acts, t, st', t) && Flowing(ss, st', t) && st'.c.phase == TimeWait && st'.s.phase == Finished
    decreases ClientRank(st.c), ServerRank(st.s), Unacked(ss, st.c), Unwritten(ss, st.s), Turn(st.c)
  {
    hide Leads, Flowing, ClientRank, ServerRank, Unacked, Unwritten, Turn;
    if st.c.phase == TimeWait && st.s.phase == Finished {
      NoStep(ss, st, t);
      acts, st' := [], st;
    } else {
      var a, mid := FlowStep(ss, st, t);
      var b, end := Flow(ss, mid, t);
      Compose(ss, st, a, t, mid, t, b, end, t);
      acts, st' := a + b, end;
    }
  }
}
