// What the client does with every packet, and at every turn: in each phase
// exactly what moves it, refreshes its watchdog, is sent and ends it, in terms
// of the session's numbers.

module ClientRules {
  import opened Wrappers
  import opened Wire
  import opened SenderWindow
  import opened ClientMachine
  import opened ServerMachine
  import opened Network
  import opened Invariant
  import opened Safety
  import opened Clocks
  import opened Progress
  import opened NoStuckState
  import opened ServerRules

  ghost predicate ClientTakesPacket(ss: Session, st: System, e: ClientEnv)
  {
    ValidSession(ss) && Reachable(ss, st) && st.c.waiting && e.outcome.Recv?
  }

  lemma ClientFacts(ss: Session, st: System)
    requires ValidSession(ss) && Reachable(ss, st)
    ensures ClientInv(ss.isn, ss.chunks, st.c)
    ensures st.c.phase in {Established, Transfer, FinWait, TimeWait} ==> Linked(ss, st.c)
  {
    hide ClientInv, Flatten, Reachable;
    ReachableInv(ss, st);
  }

  // SYN_SENT: SYN+ACK for the client's own number opens the session and refreshes the watchdog.
  lemma InSynSent(ss: Session, st: System, e: ClientEnv)
    requires ClientTakesPacket(ss, st, e) && st.c.phase == SynSent
    ensures var p := e.outcome.p; var (c', sent) := ClientStep(ClientConf(ss), st.c, e);
            var accept := p.flags == 3 && p.connId != 0 && p.ackNum == ss.isn + 1;
            var next := (p.seqNum + 1) % 0x1_0000_0000;
            && !c'.waiting && c'.now == e.t && c'.addr == e.outcome.src && c'.file == ss.chunks
            && (c'.phase == Established <==> accept && e.sendOk) && (c'.phase == Done <==> accept && !e.sendOk)
            && c'.phase in {SynSent, Established, Done} && (c'.phase == Done ==> c'.exit == 71)
            && (c'.seqNum, c'.ackNum, c'.connId) == (if accept then (ss.isn + 1, next, p.connId) else (ss.isn, 0, 0))
            && c'.lastProgress == Refreshed(st.c.lastProgress, accept, e.t)
            && sent == if accept && e.sendOk then [Packet(ss.isn + 1, next, p.connId, 2, [])] else []
  {
    hide ChunkRun, Reachable;
    ClientFacts(ss, st);
  }

  // One matching ACK: base follows it when it falls in (base, next], the timer is
  // restarted, or stopped with nothing pending; the third duplicate resends the
  // window; and any other changes only the duplicate count.
  lemma AckRule(c: Client, a: U32)
    requires Consistent(c.window)
    ensures var (c', sent) := OnAck(c, a); var w, w' := c.window, c'.window;
            var moves := w.base < a <= w.next;
            var third := !moves && a == c.lastAck && c.dups == 2;
            && c' == c.(window := w', lastProgress := c'.lastProgress, lastAck := a, dups := c'.dups)
            && w'.base == (if moves then a else w.base) && w'.next == w.next
            && w'.pending == (if moves then w.pending[a - w.base..] else w.pending)
            && w'.timer == (if moves then (if a == w.next then 0 else c.now) else if third then c.now else w.timer)
            && c'.lastProgress == Refreshed(c.lastProgress, moves, c.now)
            && c'.dups == (if moves || third then 0 else if a == c.lastAck then c.dups + 1 else 1)
            && sent == if third then w.pending else []
  {
    hide ProcessAck, Consistent;
    WindowRule(c.window, a);
  }

  lemma WindowRule(w: Window, a: U32)
    requires Consistent(w)
    ensures ProcessAck(w, a) == if w.base < a <= w.next then (Window(a, w.next, w.pending[a - w.base..], w.timer), true) else (w, false)
  {
  }

  // Transfer: only an ACK of this connection has that effect, whatever else arrives.
  lemma InTransferLoop(ss: Session, st: System, e: ClientEnv)
    requires ClientTakesPacket(ss, st, e) && st.c.phase == Transfer
    ensures var p := e.outcome.p; var (c', sent) := ClientStep(ClientConf(ss), st.c, e);
            var c := st.c.(now := e.t, waiting := false, deadline := 0, addr := e.outcome.src);
            && Consistent(st.c.window)
            && (c', sent) == if p.flags == 2 && p.connId == ss.connId then OnAck(c, p.ackNum) else (c, [])
  {
    hide ChunkRun, Reachable, OnAck;
    ClientFacts(ss, st);
    WindowConsistent(st.c.window, First(ss), ss.chunks, st.c.ackNum, st.c.connId);
  }

  // FIN_WAIT: only FIN+ACK for the number of this session's FIN ends it.
  lemma InFinWait(ss: Session, st: System, e: ClientEnv)
    requires ClientTakesPacket(ss, st, e) && st.c.phase == FinWait
    ensures var p := e.outcome.p; var (c', sent) := ClientStep(ClientConf(ss), st.c, e);
            var accept := p.flags == 6 && p.connId == ss.connId && p.ackNum == End(ss) + 1;
            var next := (p.seqNum + 1) % 0x1_0000_0000;
            && !c'.waiting && c'.now == e.t && c'.addr == e.outcome.src && c'.connId == ss.connId
            && (c'.phase == TimeWait <==> accept && e.sendOk) && (c'.phase == Done <==> accept && !e.sendOk)
            && c'.phase in {FinWait, TimeWait, Done} && (c'.phase == Done ==> c'.exit == 71)
            && (c'.seqNum, c'.ackNum) == (if accept then (End(ss) + 1, next) else (End(ss), ss.serverIsn + 1))
            && c'.lastProgress == Refreshed(st.c.lastProgress, accept, e.t)
            && sent == if accept && e.sendOk then [Packet(End(ss) + 1, next, ss.connId, 2, [])] else []
  {
    hide ChunkRun, Reachable;
    ClientFacts(ss, st);
  }

  // TIME_WAIT: FIN+ACK again is answered again, and nothing else is.
  lemma InTimeWait(ss: Session, st: System, e: ClientEnv)
    requires ClientTakesPacket(ss, st, e) && st.c.phase == TimeWait
    ensures var p := e.outcome.p; var (c', sent) := ClientStep(ClientConf(ss), st.c, e);
            var again := p.flags == 6 && p.connId == ss.connId && p.ackNum == End(ss) + 1;
            && !c'.waiting && c'.now == e.t && c'.addr == e.outcome.src
            && (c'.phase == Done <==> again && !e.sendOk) && c'.phase in {TimeWait, Done} && (c'.phase == Done ==> c'.exit == 71)
            && (c'.seqNum, c'.ackNum, c'.connId) == (End(ss) + 1, ss.serverIsn + 1, ss.connId)
            && c'.lastProgress == Refreshed(st.c.lastProgress, again && e.sendOk, e.t)
            && sent == if again && e.sendOk then [Packet(End(ss) + 1, ss.serverIsn + 1, ss.connId, 2, [])] else []
  {
    hide ChunkRun, Reachable;
    ClientFacts(ss, st);
  }

  // A wait that ends without a packet: what is sent, and every exit code.
  lemma ClientWithoutPacket(ss: Session, st: System, e: ClientEnv)
    requires ValidSession(ss) && Reachable(ss, st) && st.c.waiting && !e.outcome.Recv?
    ensures var (c', sent) := ClientStep(ClientConf(ss), st.c, e);
            var late := Expired(st.c.lastProgress, e.t, ss.clientTimeout) && st.c.phase in {SynSent, FinWait};
            var syn := st.c.phase == SynSent && e.outcome.Timeout? && !late;
            var over := st.c.phase == TimeWait && e.outcome.Timeout?;
            && c' == st.c.(now := e.t, waiting := false, deadline := 0, phase := c'.phase, exit := c'.exit,
                           addr := if e.outcome.Malformed? then e.outcome.src else st.c.addr)
            && (c'.phase == Done <==> e.outcome.WaitError? || over || (e.outcome.Timeout? && late) || (syn && !e.sendOk))
            && (c'.phase != Done ==> c'.phase == st.c.phase && c'.exit == 0)
            && (c'.phase == Done ==>
                  c'.exit == if e.outcome.WaitError? then (if st.c.phase == TimeWait && e.outcome.stopped then 0 else 71)
                             else if over then 0 else if late then 76 else 71)
            && sent == if syn && e.sendOk then [Packet(ss.isn, 0, 0, 1, [])] else []
  {
    hide ChunkRun, Reachable, Expired;
    ClientFacts(ss, st);
  }

  // The head of every handler outside the transfer loop: a stop request, the
  // watchdog where it is looked at, and then the SYN, the FIN or the wait.
  lemma ClientBeforeWait(ss: Session, st: System, e: ClientEnv)
    requires ValidSession(ss) && Reachable(ss, st) && !st.c.waiting && st.c.phase !in {Transfer, Done}
    ensures var (c', sent) := ClientStep(ClientConf(ss), st.c, e);
            var late := Expired(st.c.lastProgress, e.t, ss.clientTimeout) && st.c.phase in {SynSent, Established, FinWait};
            var fails := st.c.phase in {Closed, FinWait} && !e.sendOk;
            && c'.now == e.t && c'.lastProgress == st.c.lastProgress && c'.addr == st.c.addr && c'.file == st.c.file
            && (c'.phase == Done <==> e.stop || late || fails)
            && (c'.phase == Done ==> !c'.waiting && c'.exit == if e.stop then 70 else if late then 76 else 71)
            && (c'.phase != Done ==>
                  if st.c.phase == Closed then
                    c'.phase == SynSent && !c'.waiting && (c'.seqNum, c'.ackNum, c'.connId) == (ss.isn, 0, 0)
                  else if st.c.phase == Established then
                    c'.phase == Transfer && !c'.waiting && !c'.eof && c'.dups == 0 && c'.lastAck == 0
                    && c'.window == Window(ss.isn + 1, ss.isn + 1, [], 0) && (c'.ackNum, c'.connId) == (ss.serverIsn + 1, ss.connId)
                  else
                    c' == st.c.(now := e.t, waiting := true, deadline := e.t + if st.c.phase == TimeWait then 5000 else 250))
            && sent == if c'.phase == Done then []
                       else if st.c.phase == Closed then [Packet(ss.isn, 0, 0, 1, [])]
                       else if st.c.phase == FinWait then [Packet(End(ss), ss.serverIsn + 1, ss.connId, 4, [])]
                       else []
  {
    hide ChunkRun, Reachable, Expired;
    ClientFacts(ss, st);
  }

  // One turn of the transfer loop on a working clock, r being what the fill
  // does: it leaves with everything read and acknowledged, whatever the
  // watchdog says if that was so before; gives up if the watchdog has run out or
  // a read fails; resends the window if the timer has run for 250 ms; and waits
  // for the rest of them otherwise.
  lemma TransferLoopTurn(ss: Session, st: System, e: ClientEnv)
    requires ValidSession(ss) && ReachableOnClocks(ss, st) && st.c.phase == Transfer && !st.c.waiting && st.c.now <= e.t
    ensures var (c', sent) := ClientStep(ClientConf(ss), st.c, e);
            var c := st.c.(now := e.t); var r := Refill(c, e);
            var left := c.eof && c.window.base == c.window.next;
            var late := Expired(c.lastProgress, e.t, ss.clientTimeout);
            var ends := (c.eof || r.status == EndOfInput) && c.window.base == r.window.next;
            var started := if c.window.base == c.window.next then e.t else c.window.timer;
            && c'.lastProgress == c.lastProgress && c'.now == e.t && c'.addr == c.addr && c'.window.base == c.window.base
            && (c'.phase == FinWait <==> left || (!late && r.status != ReadFailed && ends))
            && (c'.phase == Done <==> !left && (late || r.status == ReadFailed))
            && c'.phase in {Transfer, FinWait, Done}
            && (c'.phase == FinWait ==> c'.seqNum == End(ss) && !c'.waiting)
            && (c'.phase == Done ==> c'.exit == if late then 76 else 74)
            && (c'.phase == Transfer ==>
                  && (c'.waiting <==> e.t < started + 250) && (c'.waiting ==> c'.deadline == started + 250)
                  && c'.window.timer == (if c'.waiting then started else e.t)
                  && (c'.eof <==> c.eof || r.status == EndOfInput) && c'.file == r.file && c'.window.next == r.window.next)
            && sent == if left || late then []
                       else if c'.phase == Transfer && !c'.waiting then r.sent + r.window.pending else r.sent
  {
    hide ChunkRun, ReachableOnClocks, Refill, Expired, Flatten, UpOk, DownOk;
    ReachableSound(ss, st);
    var c := st.c.(now := e.t);
    RefillKeeps(ss.isn, ss.chunks, c, e);
    RefillTimer(ss, c, e);
    TransferHeadKeeps(ClientConf(ss), ss.isn, ss.chunks, c, e);
    assert Refill(c, e).sent + [] == Refill(c, e).sent;
  }

  lemma RefillTimer(ss: Session, c: Client, e: ClientEnv)
    requires ValidSession(ss) && ClientInv(ss.isn, ss.chunks, c) && c.phase == Transfer && !c.waiting
    ensures var w := Refill(c, e).window;
            w.base < w.next ==> w.timer == if c.window.base == c.window.next then c.now else c.window.timer
  {
    hide Fill, ChunkRun;
    WindowConsistent(c.window, First(ss), ss.chunks, c.ackNum, c.connId);
    FillFacts(c.window, c.file, c.ackNum, c.connId, c.now, e.fault);
  }

  // How long every wait lasts, on working clocks: 250 ms from its beginning, in
  // transfer 250 ms from the start of the timer, and 5 s in TIME_WAIT.
  lemma WaitsExactly(ss: Session, st: System)
    requires ValidSession(ss) && ReachableOnClocks(ss, st)
    ensures st.c.waiting ==>
              && st.c.phase in {SynSent, Transfer, FinWait, TimeWait}
              && st.c.deadline == if st.c.phase == Transfer then st.c.window.timer + 250
                                  else if st.c.phase == TimeWait then st.c.now + 5000 else st.c.now + 250
    ensures st.s.waiting ==> st.s.deadline == st.s.now + 250
  {
    hide ChunkRun, ReachableOnClocks, Flatten, UpOk, DownOk, Cross;
    ReachableSound(ss, st);
  }

  // Whatever arrived before, a client leaves TIME_WAIT with EX_OK only on a stop
  // request or when its last wait, begun at st.c.now, has lasted for 5 s.
  lemma TimeWaitLasts(ss: Session, st: System, e: ClientEnv)
    requires ValidSession(ss) && ReachableOnClocks(ss, st) && Enabled(ss, st, ClientActs(e)) && Timely(st, ClientActs(e))
    requires st.c.phase == TimeWait
    ensures var c' := Apply(ss, st, ClientActs(e)).c;
            c'.phase == Done && c'.exit == 0 ==>
              st.c.waiting && (e.outcome == WaitError(true) || (e.outcome.Timeout? && e.t >= st.c.now + 5000))
  {
    hide ReachableOnClocks, OnAck, TransferHead;
    WaitsExactly(ss, st);
  }
}
