// What happens at the edge of the sequence space: a session whose last chunk
// leaves no room for a window below 2^32.

module Wraparound {
  import opened Wrappers
  import opened Wire
  import opened SenderWindow
  import opened ClientMachine
  import opened Watchdog
  import opened ServerMachine
  import opened Network
  import opened Invariant
  import opened Clocks
  import opened Continuation
  import opened Progress
  import opened NoStuckState
  import opened Witnesses

  // From here on the upper edge of a window wraps to 0 or beyond.
  const EDGE: U32 := 0x1_0000_0000 - WINDOW_SIZE

  // The number after the last chunk is 2^32 - 30. Under the largest initial
  // number, 9999, that takes one chunk more than a valid session has.
  ghost predicate EdgeSession(ss: Session)
  {
    && ss.isn < ISN_LIMIT && ss.isn + 1 + |ss.chunks| == EDGE
    && ss.serverIsn < ISN_LIMIT && 1 <= ss.connId <= 60000
  }

  // ---- the jam ----

  // End of input was not seen, and no fill will run any more.
  predicate Jammed(c: Client)
  {
    c.phase == Transfer && !c.eof && c.window.base >= EDGE && Consistent(c.window)
  }

  predicate JammedOrFailed(c: Client)
  {
    Jammed(c) || (c.phase == Done && c.exit != EX_OK)
  }

  lemma JammedTurn(cfg: ClientConfig, c: Client, e: ClientEnv)
    requires Jammed(c) && !c.waiting
    ensures JammedOrFailed(TransferHead(cfg, c, e).0)
  {
    FillGuard(c.window, c.file, c.ackNum, c.connId, c.now, e.fault);
    assert Refilled(c, Refill(c, e)) == c;
  }

  lemma JammedStep(cfg: ClientConfig, c: Client, e: ClientEnv)
    requires Jammed(c)
    ensures JammedOrFailed(ClientStep(cfg, c, e).0)
  {
    hide TransferHead, ProcessAck, Consistent;
    if !c.waiting {
      JammedTurn(cfg, c.(now := e.t), e);
    } else if e.outcome.Recv? {
      JammedAck(c.(now := e.t, waiting := false, deadline := 0, addr := e.outcome.src), e.outcome.p.ackNum);
      hide OnAck;
    }
  }

  lemma JammedAck(c: Client, ackNum: U32)
    requires Jammed(c)
    ensures Jammed(OnAck(c, ackNum).0)
  {
    ProcessAckFacts(c.window, ackNum);
  }

  // No packet, and nothing else, gets the client out: it stays or fails.
  lemma {:induction false} JammedForever(ss: Session, st: System, acts: seq<Action>)
    requires JammedOrFailed(st.c) && CanRun(ss, st, acts)
    ensures JammedOrFailed(Run(ss, st, acts).c) && !Complete(ss, Run(ss, st, acts))
    decreases |acts|
  {
    hide ClientStep, ServerStep, Consistent;
    if acts != [] {
      if acts[0].ClientActs? && Jammed(st.c) { JammedStep(ClientConf(ss), st.c, acts[0].ce); }
      JammedForever(ss, Apply(ss, st, acts[0]), acts[1..]);
    }
  }

  // With everything acknowledged it has nothing to send either.
  predicate Wedged(c: Client)
  {
    Jammed(c) && c.window.base == c.window.next
  }

  // The head gives up if the watchdog has run out, and idles for 10 ms otherwise.
  lemma WedgedHead(cfg: ClientConfig, c: Client, e: ClientEnv)
    requires Wedged(c) && !c.waiting
    ensures ClientHead(cfg, c, e) == if Expired(c.lastProgress, c.now, cfg.timeout) then (Quit(c, EX_PROTOCOL), [])
                                     else (Wait(c, IDLE_WAIT_MS), [])
  {
    FillGuard(c.window, c.file, c.ackNum, c.connId, c.now, e.fault);
    assert Refilled(c, Refill(c, e)) == c;
    assert Refill(c, e).sent + [] == [];
  }

  lemma WedgedStep(cfg: ClientConfig, c: Client, e: ClientEnv)
    requires Wedged(c)
    ensures var (c', sent) := ClientStep(cfg, c, e);
            && sent == [] && c'.lastProgress == c.lastProgress
            && (Wedged(c') || (c'.phase == Done && c'.exit != EX_OK))
  {
    hide ClientHead;
    if !c.waiting { WedgedHead(cfg, c.(now := e.t), e); }
  }

  // And it fails: a prompt client is wedged no longer than its watchdog and one idle wait.
  lemma {:induction false} WedgedUntilWatchdog(cfg: ClientConfig, c: Client, es: seq<ClientEnv>)
    requires cfg.timeout > 0 && Wedged(c) && 0 < c.lastProgress <= c.now
    requires c.now <= c.lastProgress + 1000 * cfg.timeout + IDLE_WAIT_MS
    requires c.waiting ==> c.deadline <= c.lastProgress + 1000 * cfg.timeout + IDLE_WAIT_MS
    requires PromptRun(cfg, c, es)
    ensures var c' := ClientRun(cfg, c, es);
            if Wedged(c') then c'.now <= c.lastProgress + 1000 * cfg.timeout + IDLE_WAIT_MS
            else c'.phase == Done && c'.exit != EX_OK
    decreases |es|
  {
    hide ClientTail;
    if es != [] {
      WedgedStep(cfg, c, es[0]);
      if !c.waiting { WedgedHead(cfg, c.(now := es[0].t), es[0]); } else { WedgedTail(cfg, c, es[0]); }
      hide ClientStep, ClientHead;
      var c1 := ClientStep(cfg, c, es[0]).0;
      if Wedged(c1) { WedgedUntilWatchdog(cfg, c1, es[1..]); } else { DoneStays(cfg, c1, es[1..]); }
    }
  }

  lemma WedgedTail(cfg: ClientConfig, c: Client, e: ClientEnv)
    requires Wedged(c) && c.waiting
    ensures ClientStep(cfg, c, e).0.now == e.t && !ClientStep(cfg, c, e).0.waiting
  {
  }

  lemma {:induction false} DoneStays(cfg: ClientConfig, c: Client, es: seq<ClientEnv>)
    requires c.phase == Done
    ensures ClientRun(cfg, c, es) == c
    decreases |es|
  {
    if es != [] { DoneStays(cfg, c, es[1..]); }
  }

  // ---- a run that gets there ----

  // Midway: the client's window is [b, n), the server has written everything below k.
  ghost predicate Pumping(ss: Session, st: System, b: nat, n: nat, k: nat, waiting: bool)
    requires EdgeSession(ss)
  {
    && ReachableOnClocks(ss, st)
    && st.c.phase == Transfer && st.c.waiting == waiting && !st.c.eof && st.c.addr == Peer
    && st.c.connId == ss.connId && st.c.ackNum == ss.serverIsn + 1 && st.c.lastProgress == 1 && st.c.now == 1
    && WindowHolds(st.c.window, First(ss), ss.chunks, ss.serverIsn + 1, ss.connId)
    && st.c.window.base == b && st.c.window.next == n && st.c.file == ss.chunks[n - First(ss)..]
    && (b < n ==> st.c.window.timer == 1)
    && st.s.phase == Receiving && st.s.ackNum == k && st.s.seqNum == ss.serverIsn && st.s.connId == ss.connId
    && st.s.lastProgress == 1 && st.s.now == 1
    && b <= k <= n && (forall i: U32 :: k <= i < n && First(ss) <= i < End(ss) ==> Data(ss, i) in st.toServer)
  }

  // Both sides have each other's numbers, and the client's ACK is on its way.
  ghost predicate Greeted(ss: Session, st: System)
    requires EdgeSession(ss)
  {
    && ReachableOnClocks(ss, st)
    && st.c.phase == Established && !st.c.waiting && st.c.addr == Peer && st.c.seqNum == First(ss) && st.c.file == ss.chunks
    && st.c.connId == ss.connId && st.c.ackNum == ss.serverIsn + 1 && st.c.lastProgress == 1 && st.c.now == 1
    && st.s.phase == Handshaking && !st.s.waiting && st.s.ackNum == First(ss) && st.s.seqNum == ss.serverIsn
    && st.s.connId == ss.connId && st.s.lastProgress == 1 && st.s.now == 1
    && ClientPacket(ss, First(ss), FLAG_ACK) in st.toServer
  }

  lemma Greeting(ss: Session) returns (st: System)
    requires EdgeSession(ss)
    ensures Greeted(ss, st)
  {
    hide ReachableOnClocks, TransferHead;
    StartReachable(ss);
    st := TakeStep(ss, Start(ss, 1, 1), ClientActs(CE(1, Timeout)));
    st := TakeStep(ss, st, ServerActs(SE(1, Timeout)));
    st := TakeStep(ss, st, ServerActs(SE(1, Recv(SynPacket(ss), Peer))));
    st := TakeStep(ss, st, ClientActs(CE(1, Timeout)));
    st := TakeStep(ss, st, ClientActs(CE(1, Recv(ServerPacket(ss, FLAG_SYN_ACK, First(ss)), Peer))));
  }

  // Handshake, every packet arriving once.
  lemma PumpStart(ss: Session) returns (st: System)
    requires EdgeSession(ss)
    ensures Pumping(ss, st, First(ss), First(ss), First(ss), false)
  {
    hide ReachableOnClocks, ChunkRun, TransferHead;
    st := Greeting(ss);
    st := TakeStep(ss, st, ServerActs(SE(1, Timeout)));
    st := TakeStep(ss, st, ServerActs(SE(1, Recv(ClientPacket(ss, First(ss), FLAG_ACK), Peer))));
    st := TakeStep(ss, st, ClientActs(CE(1, Timeout)));
    EmptyRun(First(ss), First(ss), ss.chunks, ss.serverIsn + 1, ss.connId);
  }

  lemma StartReachable(ss: Session)
    ensures ReachableOnClocks(ss, Start(ss, 1, 1))
  {
    assert TimelyRun(ss, Start(ss, 1, 1), []) && Run(ss, Start(ss, 1, 1), []) == Start(ss, 1, 1);
  }

  lemma TakeStep(ss: Session, st: System, a: Action) returns (st': System)
    requires ReachableOnClocks(ss, st) && Enabled(ss, st, a) && Timely(st, a)
    ensures st' == Apply(ss, st, a) && ReachableOnClocks(ss, st')
  {
    ReachMore(ss, st, a);
    st' := Apply(ss, st, a);
  }

  // The client fills its window, with no room beyond the last chunk to notice end of input.
  lemma PumpTurn(ss: Session, st: System, b: nat, n: nat, k: nat) returns (st': System)
    requires EdgeSession(ss) && Pumping(ss, st, b, n, k, false) && b + WINDOW_SIZE <= End(ss)
    ensures Pumping(ss, st', b, b + WINDOW_SIZE, k, true)
  {
    hide ReachableOnClocks, ChunkRun, Fill;
    var a := ClientActs(CE(1, Timeout));
    st' := TakeStep(ss, st, a);
    var c := st.c;
    FillKeeps(c.window, c.file, c.ackNum, c.connId, 1, None, First(ss), ss.chunks);
    WindowConsistent(c.window, First(ss), ss.chunks, c.ackNum, c.connId);
    FillFacts(c.window, c.file, c.ackNum, c.connId, 1, None);
    FillLeavesRoom(c.window, c.file, c.ackNum, c.connId, 1, None);
    var r := Fill(c.window, c.file, c.ackNum, c.connId, 1, None);
    SentData(ss, r.sent, n);
    assert r.sent + [] == r.sent;
  }

  lemma SentData(ss: Session, sent: seq<Packet>, from: nat)
    requires EdgeSession(ss) && ChunkRun(sent, from, First(ss), ss.chunks, ss.serverIsn + 1, ss.connId)
    ensures forall i: U32 :: from <= i < from + |sent| && First(ss) <= i < End(ss) ==> Data(ss, i) in sent
  {
    forall i: U32 | from <= i < from + |sent| && First(ss) <= i < End(ss) ensures Data(ss, i) in sent {
      assert sent[i - from] == Data(ss, i);
    }
  }

  // End of input is seen only by a fill that stops below its upper edge.
  lemma {:induction false} FillLeavesRoom(w: Window, file: seq<Chunk>, ackNum: U32, connId: U16, now: nat, fault: Option<nat>)
    requires Consistent(w)
    ensures var r := Fill(w, file, ackNum, connId, now, fault);
            r.status == EndOfInput ==> r.window.next < Add32(w.base, WINDOW_SIZE)
    decreases |file|
  {
    hide Consistent, Pushed;
    if w.next < Add32(w.base, WINDOW_SIZE) && fault != Some(0) && file != [] {
      var p := DataPacket(w.next, ackNum, connId, file[0]);
      PushKeepsConsistent(w, p, now);
      FillLeavesRoom(Pushed(w, p, now), file[1..], ackNum, connId, now, OneRead(fault));
    }
  }

  // The server takes in the next chunk.
  lemma PumpServer(ss: Session, st: System, b: nat, n: nat, k: nat) returns (st': System)
    requires EdgeSession(ss) && Pumping(ss, st, b, n, k, true) && k < n
    ensures Pumping(ss, st', b, n, k + 1, true) && ServerPacket(ss, FLAG_ACK, k + 1) in st'.toClient
  {
    hide ReachableOnClocks, ChunkRun;
    var st1 := st;
    if !st.s.waiting {
      st1 := TakeStep(ss, st, ServerActs(SE(1, Timeout)));
    }
    st' := TakeStep(ss, st1, ServerActs(SE(1, Recv(Data(ss, k), Peer))));
  }

  // The client takes in an acknowledgement.
  lemma PumpAck(ss: Session, st: System, b: nat, n: nat, k: nat) returns (st': System)
    requires EdgeSession(ss) && Pumping(ss, st, b, n, k, true) && b < k && ServerPacket(ss, FLAG_ACK, k) in st.toClient
    ensures Pumping(ss, st', k, n, k, false)
  {
    hide ReachableOnClocks, ChunkRun;
    var e := CE(1, Recv(ServerPacket(ss, FLAG_ACK, k), Peer));
    st' := TakeStep(ss, st, ClientActs(e));
    ProcessAckKeeps(st.c.window, k, st'.c.window.timer, First(ss), ss.chunks, ss.serverIsn + 1, ss.connId);
  }

  // Chunk by chunk, up to the last full window.
  lemma {:induction false} PumpTo(ss: Session, b: nat) returns (st: System, n: nat)
    requires EdgeSession(ss) && First(ss) <= b && b + WINDOW_SIZE <= End(ss)
    ensures Pumping(ss, st, b, n, b, false)
    decreases b
  {
    hide Pumping;
    if b == First(ss) {
      st := PumpStart(ss);
      n := b;
    } else {
      st, n := PumpTo(ss, b - 1);
      st := PumpTurn(ss, st, b - 1, n, b - 1);
      n := b - 1 + WINDOW_SIZE;
      st := PumpServer(ss, st, b - 1, n, b - 1);
      st := PumpAck(ss, st, b - 1, n, b);
    }
  }

  // The last window, the server writing all of it and only its last ACK arriving.
  lemma {:induction false} PumpRest(ss: Session, st: System, b: nat, n: nat, k: nat) returns (st': System)
    requires EdgeSession(ss) && Pumping(ss, st, b, n, k, true) && b <= k < n
    ensures Pumping(ss, st', b, n, n, true) && ServerPacket(ss, FLAG_ACK, n) in st'.toClient
    decreases n - k
  {
    hide Pumping;
    var st1 := PumpServer(ss, st, b, n, k);
    if k + 1 == n {
      st' := st1;
    } else {
      st' := PumpRest(ss, st1, b, n, k + 1);
    }
  }

  // Every such session can get wedged, by an ordinary run: 30 packets are on
  // their way, the server writes all of them, and of its ACKs the last arrives
  // first. The server has every chunk, and neither side will ever end well.
  lemma BoundIsTight(ss: Session) returns (st: System)
    requires EdgeSession(ss)
    ensures ReachableOnClocks(ss, st) && Wedged(st.c) && st.s.phase == Receiving && st.s.ackNum == End(ss)
    ensures forall acts: seq<Action> :: CanRun(ss, st, acts) ==> !Complete(ss, Run(ss, st, acts))
  {
    hide ReachableOnClocks, ChunkRun, Run, CanRun;
    var b := End(ss) - WINDOW_SIZE;
    var st1, n := PumpTo(ss, b);
    var st2 := PumpTurn(ss, st1, b, n, b);
    var st3 := PumpRest(ss, st2, b, End(ss), b);
    st := PumpAck(ss, st3, b, End(ss), End(ss));
    WindowConsistent(st.c.window, First(ss), ss.chunks, st.c.ackNum, st.c.connId);
    forall acts: seq<Action> | CanRun(ss, st, acts) ensures !Complete(ss, Run(ss, st, acts)) {
      JammedForever(ss, st, acts);
    }
  }

  // ---- exactly when it happens, for inputs of that length and longer ----

  predicate Overlong(isn: U32, chunks: seq<Chunk>)
  {
    isn < ISN_LIMIT && isn + 1 + |chunks| >= EDGE
  }

  // The window is kept as ever; end of input is seen by the first fill that
  // reaches beyond the last chunk, and by none from EDGE on.
  predicate EdgeSender(isn: U32, chunks: seq<Chunk>, c: Client)
    requires Overlong(isn, chunks)
  {
    && WindowHolds(c.window, isn + 1, chunks, c.ackNum, c.connId)
    && c.file == chunks[c.window.next - isn - 1..]
    && (c.eof ==> c.file == [] && c.window.base + WINDOW_SIZE > isn + 1 + |chunks|)
    && (c.waiting && c.window.base < EDGE ==> (c.eof <==> c.window.base + WINDOW_SIZE > isn + 1 + |chunks|))
  }

  predicate EdgeInv(isn: U32, chunks: seq<Chunk>, c: Client)
    requires Overlong(isn, chunks)
  {
    match c.phase
    case Closed => c.file == chunks && !c.waiting
    case SynSent => c.seqNum == isn && c.file == chunks
    case Established => c.seqNum == isn + 1 && c.file == chunks && !c.waiting
    case Transfer => EdgeSender(isn, chunks, c)
    case _ => true
  }

  lemma EdgeRefill(isn: U32, chunks: seq<Chunk>, c: Client, e: ClientEnv)
    requires Overlong(isn, chunks) && c.phase == Transfer && !c.waiting && EdgeSender(isn, chunks, c)
    ensures var r := Refill(c, e); var c1 := Refilled(c, r);
            && EdgeSender(isn, chunks, c1)
            && (r.status != ReadFailed && c1.window.base < EDGE ==>
                  (c1.eof <==> c1.window.base + WINDOW_SIZE > isn + 1 + |chunks|))
  {
    hide Fill, ChunkRun;
    if !c.eof {
      FillKeeps(c.window, c.file, c.ackNum, c.connId, c.now, e.fault, isn + 1, chunks);
      WindowConsistent(c.window, isn + 1, chunks, c.ackNum, c.connId);
      FillFacts(c.window, c.file, c.ackNum, c.connId, c.now, e.fault);
      FillLeavesRoom(c.window, c.file, c.ackNum, c.connId, c.now, e.fault);
    }
  }

  lemma EdgeTurn(cfg: ClientConfig, chunks: seq<Chunk>, c: Client, e: ClientEnv)
    requires Overlong(cfg.isn, chunks) && c.phase == Transfer && !c.waiting && EdgeSender(cfg.isn, chunks, c)
    ensures EdgeInv(cfg.isn, chunks, TransferHead(cfg, c, e).0)
  {
    hide ChunkRun, Refill;
    EdgeRefill(cfg.isn, chunks, c, e);
    TransferHeadPhases(cfg, c, e);
  }

  lemma EdgeHead(cfg: ClientConfig, chunks: seq<Chunk>, c: Client, e: ClientEnv)
    requires Overlong(cfg.isn, chunks) && EdgeInv(cfg.isn, chunks, c) && !c.waiting
    ensures EdgeInv(cfg.isn, chunks, ClientHead(cfg, c, e).0)
  {
    hide ChunkRun, TransferHead;
    if c.phase == Transfer {
      EdgeTurn(cfg, chunks, c, e);
    } else {
      EmptyRun(cfg.isn + 1, cfg.isn + 1, chunks, c.ackNum, c.connId);
    }
  }

  lemma EdgeTail(cfg: ClientConfig, chunks: seq<Chunk>, c: Client, e: ClientEnv)
    requires Overlong(cfg.isn, chunks) && EdgeInv(cfg.isn, chunks, c) && !c.waiting
    ensures EdgeInv(cfg.isn, chunks, ClientTail(cfg, c, e).0)
  {
    hide ChunkRun, OnAck;
    if c.phase == Transfer && e.outcome.Recv? {
      EdgeAck(cfg.isn, chunks, c.(addr := e.outcome.src), e.outcome.p.ackNum);
    }
  }

  lemma EdgeAck(isn: U32, chunks: seq<Chunk>, c: Client, ackNum: U32)
    requires Overlong(isn, chunks) && c.phase == Transfer && !c.waiting && EdgeSender(isn, chunks, c)
    ensures OnAck(c, ackNum).0.phase == Transfer && EdgeSender(isn, chunks, OnAck(c, ackNum).0)
  {
    hide ChunkRun, ProcessAck;
    var c' := OnAck(c, ackNum).0;
    ProcessAckKeeps(c.window, ackNum, c'.window.timer, isn + 1, chunks, c.ackNum, c.connId);
    OnAckMoves(c, ackNum);
    assert c'.window == ProcessAck(c.window, ackNum).0.(timer := c'.window.timer);
  }

  lemma {:induction false} EdgeRun(cfg: ClientConfig, chunks: seq<Chunk>, c: Client, es: seq<ClientEnv>)
    requires Overlong(cfg.isn, chunks) && EdgeInv(cfg.isn, chunks, c)
    ensures EdgeInv(cfg.isn, chunks, ClientRun(cfg, c, es))
    decreases |es|
  {
    hide ClientHead, ClientTail;
    if es != [] {
      if c.waiting {
        EdgeTail(cfg, chunks, c.(now := es[0].t, waiting := false, deadline := 0), es[0]);
      } else {
        EdgeHead(cfg, chunks, c.(now := es[0].t), es[0]);
      }
      EdgeRun(cfg, chunks, ClientStep(cfg, c, es[0]).0, es[1..]);
    }
  }

  // The client is handed a matching ACK that takes base to EDGE or beyond.
  predicate CrossesEdge(c: Client, e: ClientEnv)
  {
    && c.phase == Transfer && c.waiting && c.window.base < EDGE
    && e.outcome.Recv? && e.outcome.p.flags == FLAG_ACK && e.outcome.p.connId == c.connId
    && EDGE <= e.outcome.p.ackNum <= c.window.next
  }

  // In every run of such a session, whatever arrives and whenever: the ACK that
  // takes base across the edge jams the client exactly when its last fill was
  // not the one to see end of input, that is, when base + 30 was not yet beyond
  // the last chunk. A client not jammed leaves the transfer once all is acknowledged.
  lemma JamsExactly(cfg: ClientConfig, chunks: seq<Chunk>, start: nat, es: seq<ClientEnv>, e: ClientEnv, next: ClientEnv)
    requires Overlong(cfg.isn, chunks) && CrossesEdge(ClientRun(cfg, ClientStart(chunks, start), es), e)
    ensures var c := ClientRun(cfg, ClientStart(chunks, start), es);
            var c' := ClientStep(cfg, c, e).0;
            && (Jammed(c') <==> c.window.base + WINDOW_SIZE <= cfg.isn + 1 + |chunks|)
            && (!Jammed(c') && c'.window.base == c'.window.next ==> ClientStep(cfg, c', next).0.phase == FinWait)
  {
    hide ChunkRun, ClientRun;
    var c := ClientRun(cfg, ClientStart(chunks, start), es);
    EdgeRun(cfg, chunks, ClientStart(chunks, start), es);
    WindowConsistent(c.window, cfg.isn + 1, chunks, c.ackNum, c.connId);
    ProcessAckFacts(c.window, e.outcome.p.ackNum);
  }

  // With 2^32 - 1 numbers taken or more, every transfer that gets to the edge jams.
  lemma AlwaysJams(cfg: ClientConfig, chunks: seq<Chunk>, start: nat, es: seq<ClientEnv>, e: ClientEnv)
    requires Overlong(cfg.isn, chunks) && cfg.isn + 1 + |chunks| >= 0xFFFF_FFFF
    requires CrossesEdge(ClientRun(cfg, ClientStart(chunks, start), es), e)
    ensures Jammed(ClientStep(cfg, ClientRun(cfg, ClientStart(chunks, start), es), e).0)
  {
    hide ClientRun, ClientStep;
    JamsExactly(cfg, chunks, start, es, e, e);
  }
}
