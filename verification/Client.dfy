// The client state machine (src/client.c) as a step function. A step is the
// code between two waits: a head runs up to wait_for_packet, a tail runs from
// its return to the next head. Each is given the clock reading of its instant.

module ClientMachine {
  import opened Wrappers
  import opened Wire
  import opened SenderWindow

  const RETRANSMIT_INTERVAL_MS: nat := 250
  const TIME_WAIT_DURATION_MS: nat := 5000
  const IDLE_WAIT_MS: nat := 10

  datatype ClientPhase = Closed | SynSent | Established | Transfer | FinWait | TimeWait | Done

  // Transfer is the loop of handle_established, Established its entry. addr is
  // the stored peer address, which every received datagram overwrites. window,
  // eof, lastAck and dups are the locals of that function; file is the input
  // not yet read, as the chunks read_chunk will return. While waiting, the
  // machine is blocked in wait_for_packet until deadline.
  datatype Client = Client(
    phase: ClientPhase, seqNum: U32, ackNum: U32, connId: U16, addr: Host,
    window: Window, file: seq<Chunk>, eof: bool, lastAck: U32, dups: nat,
    lastProgress: nat, exit: int, now: nat, waiting: bool, deadline: nat)

  datatype ClientConfig = ClientConfig(timeout: int, isn: U32)

  // How wait_for_packet followed by recv_packet came out: no datagram, one that
  // parse_packet drops, or a packet. src is the sender's address.
  datatype Outcome = Timeout | WaitError(stopped: bool) | RecvFailed | Malformed(src: Host) | Recv(p: Packet, src: Host)

  // What the surroundings contribute to a step: the clock, the stop flag, the
  // failing reads, what arrived, and whether a control packet can be sent.
  datatype ClientEnv = ClientEnv(t: nat, stop: bool, fault: Option<nat>, outcome: Outcome, sendOk: bool)

  // The uint64_t difference of two clock readings; since may be the later one when the clock fails and reads 0.
  function Elapsed(now: nat, since: nat): int
  {
    if since <= now then now - since else 0x1_0000_0000_0000_0000 + now - since
  }

  function Expired(lastProgress: nat, now: nat, timeout: int): bool
  {
    lastProgress != 0 && timeout > 0 && now != 0 && Elapsed(now, lastProgress) >= 1000 * timeout
  }

  function MarkProgress(lastProgress: nat, now: nat): nat
  {
    if now != 0 then now else lastProgress
  }

  function Quit(c: Client, code: int): Client
  {
    c.(phase := Done, exit := code, waiting := false, deadline := 0)
  }

  function Wait(c: Client, ms: nat): Client
  {
    c.(waiting := true, deadline := c.now + ms)
  }

  // Sends p and goes on as c, or gives up when send_packet fails.
  function Sending(c: Client, ok: bool, p: Packet): (Client, seq<Packet>)
  {
    if ok then (c, [p]) else (Quit(c, EX_OSERR), [])
  }

  function ClientStep(cfg: ClientConfig, c: Client, e: ClientEnv): (Client, seq<Packet>)
  {
    if c.phase == Done then (c, [])
    else if c.waiting then ClientTail(cfg, c.(now := e.t, waiting := false, deadline := 0), e)
    else ClientHead(cfg, c.(now := e.t), e)
  }

  function ClientHead(cfg: ClientConfig, c: Client, e: ClientEnv): (Client, seq<Packet>)
  {
    if c.phase != Transfer && e.stop then (Quit(c, EX_SOFTWARE), [])
    else match c.phase
      case Closed =>
        var c1 := c.(phase := SynSent, seqNum := cfg.isn, ackNum := 0, connId := 0);
        Sending(c1, e.sendOk, Packet(c1.seqNum, c1.ackNum, c1.connId, FLAG_SYN, []))
      case SynSent =>
        if Expired(c.lastProgress, c.now, cfg.timeout) then (Quit(c, EX_PROTOCOL), [])
        else (Wait(c, RETRANSMIT_INTERVAL_MS), [])
      case Established =>
        if Expired(c.lastProgress, c.now, cfg.timeout) then (Quit(c, EX_PROTOCOL), [])
        else (c.(phase := Transfer, window := Window(c.seqNum, c.seqNum, [], 0), eof := false, lastAck := 0, dups := 0), [])
      case Transfer => TransferHead(cfg, c, e)
      case FinWait =>
        if Expired(c.lastProgress, c.now, cfg.timeout) then (Quit(c, EX_PROTOCOL), [])
        else Sending(Wait(c, RETRANSMIT_INTERVAL_MS), e.sendOk, Packet(c.seqNum, c.ackNum, c.connId, FLAG_FIN, []))
      case TimeWait => (Wait(c, TIME_WAIT_DURATION_MS), [])
      case Done => (c, [])
  }

  // Leaves handle_established.
  function TransferDone(c: Client): Client
  {
    c.(phase := FinWait, seqNum := c.window.next)
  }

  function Refill(c: Client, e: ClientEnv): FillResult
  {
    if c.eof then FillResult(c.window, c.file, [], Filled)
    else Fill(c.window, c.file, c.ackNum, c.connId, c.now, e.fault)
  }

  function Refilled(c: Client, r: FillResult): Client
  {
    c.(window := r.window, file := r.file, eof := c.eof || r.status == EndOfInput)
  }

  // One turn of the transfer loop, up to its wait or its continue.
  function TransferHead(cfg: ClientConfig, c: Client, e: ClientEnv): (Client, seq<Packet>)
  {
    if c.eof && !(c.window.base < c.window.next) then (TransferDone(c), [])
    else if Expired(c.lastProgress, c.now, cfg.timeout) then (Quit(c, EX_PROTOCOL), [])
    else
      var r := Refill(c, e);
      var c1 := Refilled(c, r);
      if r.status == ReadFailed then (Quit(c1, EX_IOERR), r.sent)
      else if c1.eof && c1.window.base == c1.window.next then (TransferDone(c1), r.sent)
      else var (c2, resent) := TimerCheck(c1); (c2, r.sent + resent)
  }

  // Starts the retransmission timer if it is off; retransmits if it ran out, waits otherwise.
  function TimerCheck(c: Client): (Client, seq<Packet>)
  {
    if c.window.base == c.window.next then (Wait(c, IDLE_WAIT_MS), [])
    else
      var timer := if c.window.timer == 0 then c.now else c.window.timer;
      var elapsed := Elapsed(c.now, timer);
      if elapsed >= RETRANSMIT_INTERVAL_MS then (c.(window := c.window.(timer := c.now)), c.window.pending)
      else
        (Wait(c.(window := c.window.(timer := timer)), AtLeastOne(RETRANSMIT_INTERVAL_MS - elapsed)), [])
  }

  function AtLeastOne(ms: int): nat
  {
    if ms < 1 then 1 else ms
  }

  function ClientTail(cfg: ClientConfig, c: Client, e: ClientEnv): (Client, seq<Packet>)
  {
    match e.outcome
    case Timeout => ClientTimeout(cfg, c, e)
    case WaitError(stopped) => (Quit(c, if c.phase == TimeWait && stopped then EX_OK else EX_OSERR), [])
    case RecvFailed => (c, [])
    case Malformed(src) => (c.(addr := src), [])
    case Recv(p, src) => ClientReceive(c.(addr := src), e, p)
  }

  function ClientTimeout(cfg: ClientConfig, c: Client, e: ClientEnv): (Client, seq<Packet>)
  {
    match c.phase
    case SynSent =>
      if Expired(c.lastProgress, c.now, cfg.timeout) then (Quit(c, EX_PROTOCOL), [])
      else Sending(c, e.sendOk, Packet(c.seqNum, c.ackNum, c.connId, FLAG_SYN, []))
    case FinWait =>
      if Expired(c.lastProgress, c.now, cfg.timeout) then (Quit(c, EX_PROTOCOL), []) else (c, [])
    case TimeWait => (c.(phase := Done), [])
    case _ => (c, [])
  }

  function ClientReceive(c: Client, e: ClientEnv, p: Packet): (Client, seq<Packet>)
  {
    match c.phase
    case SynSent =>
      if p.flags == FLAG_SYN_ACK && p.connId != 0 && p.ackNum == Add32(c.seqNum, 1) then
        var c1 := c.(phase := Established, connId := p.connId, ackNum := Add32(p.seqNum, 1), seqNum := Add32(c.seqNum, 1),
                     lastProgress := MarkProgress(c.lastProgress, c.now));
        Sending(c1, e.sendOk, Packet(c1.seqNum, c1.ackNum, c1.connId, FLAG_ACK, []))
      else (c, [])
    case Transfer =>
      if p.flags == FLAG_ACK && p.connId == c.connId then OnAck(c, p.ackNum) else (c, [])
    case FinWait =>
      if p.flags == FLAG_FIN_ACK && p.connId == c.connId && p.ackNum == Add32(c.seqNum, 1) then
        var c1 := c.(phase := TimeWait, ackNum := Add32(p.seqNum, 1), seqNum := Add32(c.seqNum, 1),
                     lastProgress := MarkProgress(c.lastProgress, c.now));
        Sending(c1, e.sendOk, Packet(c1.seqNum, c1.ackNum, c1.connId, FLAG_ACK, []))
      else (c, [])
    case TimeWait =>
      if p.flags == FLAG_FIN_ACK && p.connId == c.connId && p.ackNum == c.seqNum then
        Sending(if e.sendOk then c.(lastProgress := MarkProgress(c.lastProgress, c.now)) else c, e.sendOk,
                Packet(c.seqNum, c.ackNum, c.connId, FLAG_ACK, []))
      else (c, [])
    case _ => (c, [])
  }

  // A matching ACK during transfer: slide the window, or count duplicates.
  function OnAck(c: Client, ackNum: U32): (Client, seq<Packet>)
  {
    var (w, ackedNew) := ProcessAck(c.window, ackNum);
    if ackedNew then
      (c.(window := w.(timer := if w.base == w.next then 0 else c.now), dups := 0, lastAck := ackNum,
          lastProgress := MarkProgress(c.lastProgress, c.now)), [])
    else if ackNum == c.lastAck then
      if c.dups + 1 == 3 then (c.(dups := 0, window := c.window.(timer := c.now)), c.window.pending)
      else (c.(dups := c.dups + 1), [])
    else (c.(lastAck := ackNum, dups := 1), [])
  }

  // run_client starts here, the clock at now.
  function ClientStart(chunks: seq<Chunk>, now: nat): Client
  {
    Client(Closed, 0, 0, 0, Peer, Window(0, 0, [], 0), chunks, false, 0, 0, now, EX_OK, now, false, 0)
  }

  // The exit code run_client returns after closing its file and socket.
  function ClientExit(c: Client, fileClosed: bool, socketClosed: bool): int
  {
    if !socketClosed then EX_OSERR else if !fileClosed then EX_IOERR else c.exit
  }

  function ClientRun(cfg: ClientConfig, c: Client, es: seq<ClientEnv>): Client
    decreases |es|
  {
    if es == [] then c
    else ClientRun(cfg, ClientStep(cfg, c, es[0]).0, es[1..])
  }

  // ---- what holds of the sender alone, whatever arrives and whenever ----

  // Sequence numbers stay clear of 2^32, with room for a window beyond the last chunk.
  predicate Fits(isn: U32, chunks: seq<Chunk>)
  {
    isn + 1 + |chunks| + WINDOW_SIZE < 0x1_0000_0000
  }

  // Chunks base .. next - 1 are pending, each under its own number.
  predicate WindowHolds(w: Window, first: nat, chunks: seq<Chunk>, ackNum: U32, connId: U16)
  {
    && first <= w.base <= w.next <= first + |chunks|
    && w.next <= w.base + WINDOW_SIZE
    && |w.pending| == w.next - w.base
    && ChunkRun(w.pending, w.base, first, chunks, ackNum, connId)
  }

  // Nothing can be added to the window: it is full, or end of input was seen.
  predicate NoRoom(c: Client)
  {
    c.eof || c.window.next == c.window.base + WINDOW_SIZE
  }

  // During transfer the window holds its chunks and the rest of the input is
  // still unread; a client that waits has something pending and no room for more.
  predicate SenderInv(isn: U32, chunks: seq<Chunk>, c: Client)
    requires Fits(isn, chunks)
  {
    && WindowHolds(c.window, isn + 1, chunks, c.ackNum, c.connId)
    && c.file == chunks[c.window.next - isn - 1..]
    && (c.eof ==> c.file == [])
    && (c.waiting ==> c.window.base < c.window.next && NoRoom(c))
  }

  predicate ClientInv(isn: U32, chunks: seq<Chunk>, c: Client)
    requires Fits(isn, chunks)
  {
    && (c.phase != Done ==> c.exit == EX_OK)
    && c.dups < 3
    && match c.phase
       case Closed => c.connId == 0 && c.file == chunks && !c.waiting
       case SynSent => c.seqNum == isn && c.ackNum == 0 && c.connId == 0 && c.file == chunks
       case Established => c.seqNum == isn + 1 && c.file == chunks && !c.waiting
       case Transfer => SenderInv(isn, chunks, c)
       case FinWait => c.seqNum == isn + 1 + |chunks|
       case TimeWait => c.seqNum == isn + 2 + |chunks|
       case Done => !c.waiting
  }

  lemma WindowConsistent(w: Window, first: nat, chunks: seq<Chunk>, ackNum: U32, connId: U16)
    requires WindowHolds(w, first, chunks, ackNum, connId)
    ensures Consistent(w)
  {
  }

  lemma ChunkRunAppend(ps: seq<Packet>, sent: seq<Packet>, from: nat, first: nat, chunks: seq<Chunk>, ackNum: U32, connId: U16)
    requires ChunkRun(ps, from, first, chunks, ackNum, connId)
    requires ChunkRun(sent, from + |ps|, from + |ps|, chunks[from + |ps| - first..], ackNum, connId)
    ensures ChunkRun(sent, from + |ps|, first, chunks, ackNum, connId)
    ensures ChunkRun(ps + sent, from, first, chunks, ackNum, connId)
    ensures from - first + |ps| + |sent| <= |chunks|
  {
  }

  lemma EmptyRun(from: nat, first: nat, chunks: seq<Chunk>, ackNum: U32, connId: U16)
    requires first <= from <= first + |chunks| && from <= 0x1_0000_0000
    ensures ChunkRun([], from, first, chunks, ackNum, connId)
  {
  }

  lemma ChunkRunDrop(ps: seq<Packet>, k: nat, from: nat, first: nat, chunks: seq<Chunk>, ackNum: U32, connId: U16)
    requires k <= |ps| && ChunkRun(ps, from, first, chunks, ackNum, connId)
    ensures ChunkRun(ps[k..], from + k, first, chunks, ackNum, connId)
  {
  }

  lemma FillKeeps(w: Window, file: seq<Chunk>, ackNum: U32, connId: U16, now: nat, fault: Option<nat>, first: nat, chunks: seq<Chunk>)
    requires WindowHolds(w, first, chunks, ackNum, connId) && file == chunks[w.next - first..]
    ensures var r := Fill(w, file, ackNum, connId, now, fault);
            && WindowHolds(r.window, first, chunks, ackNum, connId) && r.file == chunks[r.window.next - first..]
            && r.window.base == w.base && r.window.next == w.next + |r.sent|
            && ChunkRun(r.sent, w.next, first, chunks, ackNum, connId)
            && (r.status == EndOfInput ==> r.file == [])
            && (w.base + WINDOW_SIZE < 0x1_0000_0000 && r.status == Filled ==> r.window.next == w.base + WINDOW_SIZE)
  {
    hide Fill, ChunkRun;
    var r := Fill(w, file, ackNum, connId, now, fault);
    WindowConsistent(w, first, chunks, ackNum, connId);
    FillFacts(w, file, ackNum, connId, now, fault);
    FillSends(w, file, ackNum, connId, now, fault);
    ChunkRunAppend(w.pending, r.sent, w.base, first, chunks, ackNum, connId);
    assert file[|r.sent|..] == chunks[r.window.next - first..];
  }

  // A refill keeps the window, the input position and the numbering together.
  lemma RefillKeeps(isn: U32, chunks: seq<Chunk>, c: Client, e: ClientEnv)
    requires Fits(isn, chunks) && c.phase == Transfer && !c.waiting && SenderInv(isn, chunks, c)
    ensures var r := Refill(c, e);
            && SenderInv(isn, chunks, Refilled(c, r))
            && r.window.base == c.window.base && r.window.next == c.window.next + |r.sent|
            && ChunkRun(r.sent, c.window.next, isn + 1, chunks, c.ackNum, c.connId)
            && (r.status == ReadFailed || Refilled(c, r).eof || r.window.next == r.window.base + WINDOW_SIZE)
  {
    hide Fill, ChunkRun, WindowHolds;
    RefillRange(isn, chunks, c);
    if !c.eof {
      FillKeeps(c.window, c.file, c.ackNum, c.connId, c.now, e.fault, isn + 1, chunks);
    }
  }

  lemma RefillRange(isn: U32, chunks: seq<Chunk>, c: Client)
    requires Fits(isn, chunks) && SenderInv(isn, chunks, c)
    ensures isn + 1 <= c.window.base <= c.window.next <= isn + 1 + |chunks|
    ensures ChunkRun([], c.window.next, isn + 1, chunks, c.ackNum, c.connId)
  {
  }

  // The 10 ms idle wait is unreachable: after a fill, either the input is
  // finished, a read failed, or the window holds exactly 30 packets.
  lemma IdleWaitUnreachable(isn: U32, chunks: seq<Chunk>, c: Client, e: ClientEnv)
    requires Fits(isn, chunks) && c.phase == Transfer && !c.waiting && ClientInv(isn, chunks, c)
    ensures var r := Refill(c, e); var c1 := Refilled(c, r);
            c1.window.base == c1.window.next ==> r.status == ReadFailed || c1.eof
  {
    RefillKeeps(isn, chunks, c, e);
  }

  lemma TransferHeadKeeps(cfg: ClientConfig, isn: U32, chunks: seq<Chunk>, c: Client, e: ClientEnv)
    requires Fits(isn, chunks) && c.phase == Transfer && !c.waiting && ClientInv(isn, chunks, c)
    ensures var c' := TransferHead(cfg, c, e).0;
            && ClientInv(isn, chunks, c') && c'.ackNum == c.ackNum && c'.connId == c.connId
            && c'.window.base == c.window.base && c.window.next <= c'.window.next <= isn + 1 + |chunks|
            && (c'.phase == FinWait ==> c'.window.base == isn + 1 + |chunks|)
  {
    hide ChunkRun, Refill;
    RefillKeeps(isn, chunks, c, e);
  }

  lemma TransferHeadPhases(cfg: ClientConfig, c: Client, e: ClientEnv)
    requires c.phase == Transfer && !c.waiting
    ensures var c' := TransferHead(cfg, c, e).0;
            && c'.phase in {Transfer, FinWait, Done}
            && (c'.phase == FinWait ==> c'.seqNum == c'.window.next && c'.window.next <= c'.window.base)
            && (c'.phase == Done ==> c'.exit != EX_OK)
  {
    hide Refill, TimerCheck;
    assert TimerCheck(Refilled(c, Refill(c, e))).0.phase == Transfer by { TimerPhase(Refilled(c, Refill(c, e))); }
  }

  lemma TimerPhase(c: Client)
    ensures TimerCheck(c).0.phase == c.phase
  {
  }

  lemma TransferHeadClockwork(cfg: ClientConfig, c: Client, e: ClientEnv)
    ensures var c' := TransferHead(cfg, c, e).0;
            && c'.lastProgress == c.lastProgress && c'.now == c.now && c'.connId == c.connId && c'.addr == c.addr
            && c'.lastAck == c.lastAck && c'.dups == c.dups
  {
    hide Refill;
  }

  lemma TransferHeadShape(cfg: ClientConfig, c: Client, e: ClientEnv)
    ensures var (c', sent) := TransferHead(cfg, c, e);
            var r := Refill(c, e);
            || (c'.window == c.window && sent == [])
            || (c'.window == r.window.(timer := c'.window.timer) && (sent == r.sent || sent == r.sent + r.window.pending))
  {
    hide Refill;
    var r := Refill(c, e);
    assert r.sent + [] == r.sent;
  }

  // One turn of the loop sends the newly read packets, followed, when the timer
  // ran out, by every pending packet base .. next - 1 in order and unchanged.
  lemma TransferHeadSends(cfg: ClientConfig, isn: U32, chunks: seq<Chunk>, c: Client, e: ClientEnv)
    requires Fits(isn, chunks) && c.phase == Transfer && !c.waiting && ClientInv(isn, chunks, c)
    ensures var (c', sent) := TransferHead(cfg, c, e);
            var n := c'.window.next - c.window.next;
            && |c'.window.pending| == c'.window.next - c'.window.base
            && ChunkRun(c'.window.pending, c'.window.base, isn + 1, chunks, c.ackNum, c.connId)
            && 0 <= n <= |sent| && ChunkRun(sent[..n], c.window.next, isn + 1, chunks, c.ackNum, c.connId)
            && (sent[n..] == [] || sent[n..] == c'.window.pending)
  {
    hide ChunkRun, Refill, TransferHead;
    RefillKeeps(isn, chunks, c, e);
    TransferHeadShape(cfg, c, e);
    EmptyRun(c.window.next, isn + 1, chunks, c.ackNum, c.connId);
    var r := Refill(c, e);
    assert WindowHolds(c.window, isn + 1, chunks, c.ackNum, c.connId) && WindowHolds(r.window, isn + 1, chunks, c.ackNum, c.connId);
    hide ClientInv;
    assert (r.sent + r.window.pending)[..|r.sent|] == r.sent && (r.sent + r.window.pending)[|r.sent|..] == r.window.pending;
    assert r.sent[..|r.sent|] == r.sent && r.sent[|r.sent|..] == [];
  }

  // What an ACK does to the sender: base follows it when it falls in (base, next],
  // and then, and only then, progress is marked.
  lemma OnAckMoves(c: Client, ackNum: U32)
    ensures var (c', sent) := OnAck(c, ackNum);
            && c'.phase == c.phase && c'.ackNum == c.ackNum && c'.connId == c.connId && c'.window.next == c.window.next
            && c'.window.base == (if c.window.base < ackNum <= c.window.next then ackNum else c.window.base)
            && (sent == [] || sent == c.window.pending)
            && c'.lastProgress == (if c'.window.base != c.window.base then MarkProgress(c.lastProgress, c.now) else c.lastProgress)
  {
  }

  lemma ProcessAckKeeps(w: Window, ackNum: U32, timer: nat, first: nat, chunks: seq<Chunk>, peerAck: U32, connId: U16)
    requires WindowHolds(w, first, chunks, peerAck, connId)
    ensures var w' := ProcessAck(w, ackNum).0;
            && WindowHolds(w'.(timer := timer), first, chunks, peerAck, connId)
            && w'.next == w.next && (!ProcessAck(w, ackNum).1 ==> w' == w)
  {
    hide ChunkRun;
    WindowConsistent(w, first, chunks, peerAck, connId);
    ProcessAckFacts(w, ackNum);
    var w' := ProcessAck(w, ackNum).0;
    ChunkRunDrop(w.pending, w'.base - w.base, w.base, first, chunks, peerAck, connId);
  }

  lemma OnAckKeeps(isn: U32, chunks: seq<Chunk>, c: Client, ackNum: U32)
    requires Fits(isn, chunks) && c.phase == Transfer && !c.waiting && ClientInv(isn, chunks, c)
    ensures ClientInv(isn, chunks, OnAck(c, ackNum).0)
  {
    hide ChunkRun, ProcessAck;
    var c' := OnAck(c, ackNum).0;
    ProcessAckKeeps(c.window, ackNum, c'.window.timer, isn + 1, chunks, c.ackNum, c.connId);
    OnAckMoves(c, ackNum);
    assert c'.window == ProcessAck(c.window, ackNum).0.(timer := c'.window.timer);
  }

  lemma ClientHeadKeeps(cfg: ClientConfig, chunks: seq<Chunk>, c: Client, e: ClientEnv)
    requires Fits(cfg.isn, chunks) && ClientInv(cfg.isn, chunks, c) && !c.waiting
    ensures ClientInv(cfg.isn, chunks, ClientHead(cfg, c, e).0)
  {
    hide SenderInv, TransferHead, Expired;
    if c.phase == Transfer {
      TransferHeadKeeps(cfg, cfg.isn, chunks, c, e);
    } else if c.phase == Established {
      EntryHolds(cfg.isn, chunks, c);
    }
  }

  lemma EntryHolds(isn: U32, chunks: seq<Chunk>, c: Client)
    requires Fits(isn, chunks) && c.seqNum == isn + 1 && c.file == chunks && !c.waiting
    ensures SenderInv(isn, chunks, c.(phase := Transfer, window := Window(c.seqNum, c.seqNum, [], 0), eof := false, lastAck := 0, dups := 0))
  {
    hide ChunkRun;
    EmptyRun(isn + 1, isn + 1, chunks, c.ackNum, c.connId);
    assert chunks[0..] == chunks;
  }

  lemma ClientTailKeeps(cfg: ClientConfig, chunks: seq<Chunk>, c: Client, e: ClientEnv)
    requires Fits(cfg.isn, chunks) && ClientInv(cfg.isn, chunks, c) && !c.waiting
    ensures ClientInv(cfg.isn, chunks, ClientTail(cfg, c, e).0)
  {
    hide ChunkRun, OnAck;
    if c.phase == Transfer && e.outcome.Recv? {
      OnAckKeeps(cfg.isn, chunks, c.(addr := e.outcome.src), e.outcome.p.ackNum);
    }
  }

  // Every step keeps the sender invariant, for any packet contents and any clock.
  lemma ClientStepKeeps(cfg: ClientConfig, chunks: seq<Chunk>, c: Client, e: ClientEnv)
    requires Fits(cfg.isn, chunks) && ClientInv(cfg.isn, chunks, c)
    ensures ClientInv(cfg.isn, chunks, ClientStep(cfg, c, e).0)
  {
    hide ChunkRun, ClientHead, ClientTail;
    if c.waiting {
      ClientTailKeeps(cfg, chunks, c.(now := e.t, waiting := false, deadline := 0), e);
    } else {
      ClientHeadKeeps(cfg, chunks, c.(now := e.t), e);
    }
  }

  lemma {:induction false} ClientRunKeeps(cfg: ClientConfig, chunks: seq<Chunk>, c: Client, es: seq<ClientEnv>)
    requires Fits(cfg.isn, chunks) && ClientInv(cfg.isn, chunks, c)
    ensures ClientInv(cfg.isn, chunks, ClientRun(cfg, c, es))
    decreases |es|
  {
    hide ClientStep, ClientInv;
    if es != [] {
      ClientStepKeeps(cfg, chunks, c, es[0]);
      ClientRunKeeps(cfg, chunks, ClientStep(cfg, c, es[0]).0, es[1..]);
    }
  }
}
