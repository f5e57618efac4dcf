// What brings a session on its way again after everything in transit was lost,
// and when it still comes in time.

module Restart {
  import opened Wrappers
  import opened Wire
  import opened SenderWindow
  import opened ClientMachine
  import opened ServerMachine
  import opened Network
  import opened Invariant
  import opened Clocks
  import opened Continuation
  import opened Progress

  function Max(a: nat, b: nat): nat
  {
    if a < b then b else a
  }

  // The next turn of the transfer loop sends a chunk for the first time.
  predicate NewData(c: Client)
  {
    c.phase == Transfer && !NoRoom(c) && c.file != []
  }

  // The instant, from t on, at which the client next sends something: at once,
  // unless it has to wait for its timer.
  function Resends(c: Client, t: nat): nat
  {
    match c.phase
    case SynSent => if c.waiting then Max(t, c.deadline) else t + RETRANSMIT_INTERVAL_MS
    case Transfer =>
      if c.window.base < c.window.next && !NewData(c) then Max(t, c.window.timer + RETRANSMIT_INTERVAL_MS) else t
    case FinWait => if c.waiting then Max(t, c.deadline) else t
    case _ => t
  }

  // The same for a server in LAST_ACK.
  function ServerResends(s: Server, t: nat): nat
  {
    if s.waiting then Max(t, s.deadline) else t + RETRANSMIT_INTERVAL_MS
  }

  // The client's next packet reaches its peer before either watchdog fires. A
  // server blocked in its wait takes it without looking at the watchdog, and is
  // past danger unless the packet is one it only answers.
  ghost predicate ClientInTime(ss: Session, st: System, t: nat)
  {
    && st.c.addr == Peer && ClientPatient(ss, st.c, Resends(st.c, t)) && Listens(ss, st.s, t)
    && (OnlyAnswers(st) && !NewData(st.c) ==> ServerPatient(ss, st.s, Resends(st.c, t)))
  }

  // A server in LAST_ACK sends FIN+ACK again before either watchdog fires.
  ghost predicate ServerInTime(ss: Session, st: System, t: nat)
  {
    && st.s.phase == LastAck && st.s.addr == Peer && ServerPatient(ss, st.s, ServerResends(st.s, t))
    && (st.c.waiting || ClientPatient(ss, st.c, t))
  }

  // A client that has had its FIN+ACK needs no more packets, and the server
  // none either once it is in its wait: there its watchdog ends it with EX_OK.
  ghost predicate InTime(ss: Session, st: System, t: nat)
  {
    if Closing(st.c) then st.s.phase == LastAck ==> Listens(ss, st.s, t)
    else ClientInTime(ss, st, t) || ServerInTime(ss, st, t)
  }

  // A live session, the server in its wait, that the client can bring on its way again.
  ghost predicate Restartable(ss: Session, st: System, t: nat)
    requires ValidSession(ss)
  {
    && Sound(ss, st) && Alive(st) && Recoverable(ss, st) && ClientInTime(ss, st, t) && st.s.waiting
    && !Closing(st.c) && st.c.now <= t && st.s.now <= t && ss.clientTimeout > 0 && ss.serverTimeout > 0
  }

  lemma RestartSyn(ss: Session, st: System, t: nat) returns (acts: seq<Action>, st': System, to: nat)
    requires ValidSession(ss) && Restartable(ss, st, t) && st.c.phase == SynSent
    ensures Leads(ss, st, acts, t, st', to) && Flowing(ss, st', to) && to <= t + RETRANSMIT_INTERVAL_MS
  {
    hide ServerInv, ChunkRun, Leads, UpOk, DownOk;
    var a1, st1 := [], st;
    if !st.c.waiting {
      a1, st1 := ClientTurns(ss, st, t);
    } else {
      NoStep(ss, st, t);
    }
    to := Max(t, st1.c.deadline);
    var a2, st2 := ClientTimesOut(ss, st1, to);
    assert SynPacket(ss) in st2.toServer;
    Extend(ss, st, a1, t, st1, t, to);
    Compose(ss, st, a1, t, st1, to, a2, st2, to);
    acts, st' := a1 + a2, st2;
  }

  // The transfer wait runs out and the next turn resends the whole window.
  lemma RestartWaiting(ss: Session, st: System, t: nat) returns (acts: seq<Action>, st': System, to: nat)
    requires ValidSession(ss) && Restartable(ss, st, t) && st.c.phase == Transfer && st.c.waiting
    ensures Leads(ss, st, acts, t, st', to) && Flowing(ss, st', to) && to == Max(t, st.c.deadline)
  {
    hide ChunkRun, Leads, UpOk, DownOk, TransferHead, Flatten;
    to := Max(t, st.c.deadline);
    NoStep(ss, st, t);
    Extend(ss, st, [], t, st, t, to);
    var a1, st1 := ClientTimesOut(ss, st, to);
    var a2, st2 := ClientTurns(ss, st1, to);
    var c := st1.c.(now := to);
    TransferTurn(ss, c, to);
    TransferHeadClockwork(ClientConf(ss), c, CE(to, Timeout));
    TransferHeadPhases(ClientConf(ss), c, CE(to, Timeout));
    Compose(ss, st, [], t, st, to, a1, st1, to);
    Compose(ss, st, [] + a1, t, st1, to, a2, st2, to);
    acts, st' := [] + a1 + a2, st2;
  }

  lemma RestartTransfer(ss: Session, st: System, t: nat) returns (acts: seq<Action>, st': System, to: nat)
    requires ValidSession(ss) && Restartable(ss, st, t) && st.c.phase == Transfer && !st.c.waiting
    requires st.c.window.base < st.c.window.next && !NewData(st.c)
    ensures Leads(ss, st, acts, t, st', to) && Flowing(ss, st', to) && to <= t + RETRANSMIT_INTERVAL_MS
  {
    hide ChunkRun, Leads, UpOk, DownOk, TransferHead, Flatten;
    var a1, st1 := ClientTurns(ss, st, t);
    var c := st.c.(now := t);
    TransferTurn(ss, c, t);
    TransferHeadClockwork(ClientConf(ss), c, CE(t, Timeout));
    TransferHeadPhases(ClientConf(ss), c, CE(t, Timeout));
    if st1.c.waiting {
      var a2, st2, at := RestartWaiting(ss, st1, t);
      Compose(ss, st, a1, t, st1, t, a2, st2, at);
      acts, st', to := a1 + a2, st2, at;
    } else {
      acts, st', to := a1, st1, t;
    }
  }

  lemma RestartFinWait(ss: Session, st: System, t: nat) returns (acts: seq<Action>, st': System, to: nat)
    requires ValidSession(ss) && Restartable(ss, st, t) && st.c.phase == FinWait && st.c.waiting
    ensures Leads(ss, st, acts, t, st', to) && Flowing(ss, st', to) && to <= t + RETRANSMIT_INTERVAL_MS
  {
    hide ServerInv, ChunkRun, Leads, UpOk, DownOk;
    to := Max(t, st.c.deadline);
    NoStep(ss, st, t);
    Extend(ss, st, [], t, st, t, to);
    var a1, st1 := ClientTimesOut(ss, st, to);
    Compose(ss, st, [], t, st, to, a1, st1, to);
    acts, st' := [] + a1, st1;
  }

  lemma RestartNow(ss: Session, st: System, t: nat)
    requires ValidSession(ss) && Restartable(ss, st, t)
    requires st.c.phase in {SynSent, FinWait} ==> st.c.phase == FinWait && !st.c.waiting
    requires st.c.phase == Transfer ==> !st.c.waiting && st.c.window.base >= st.c.window.next
    ensures Leads(ss, st, [], t, st, t) && Flowing(ss, st, t)
  {
    hide Sound;
    NoStep(ss, st, t);
  }

  // ---- acknowledgements of earlier chunks lost, new chunks to send ----

  // The acknowledgement of everything the server has is on its way, any number of times.
  ghost predicate Goading(ss: Session, st: System, t: nat, a: U32)
    requires ValidSession(ss)
  {
    && Sound(ss, st) && st.c.phase == Transfer && st.c.addr == Peer && ClientPatient(ss, st.c, t)
    && st.s.phase == Receiving && ServerPatient(ss, st.s, t)
    && st.s.ackNum == a && st.c.window.base <= a < st.c.window.next && ServerPacket(ss, FLAG_ACK, a) in st.toClient
    && st.c.now <= t && st.s.now <= t && ss.clientTimeout > 0 && ss.serverTimeout > 0
  }

  function Steps(c: Client, a: U32): nat
  {
    (if c.window.base < a then 10 else 0) + (if c.lastAck == a then 0 else 5) + (if c.dups < 3 then 2 * (3 - c.dups) else 0)
    + (if c.waiting then 0 else 1)
  }

  // One turn of the loop: it resends the window if the timer ran out, and waits otherwise.
  lemma GoadTurn(ss: Session, st: System, t: nat, a: U32) returns (acts: seq<Action>, st': System)
    requires ValidSession(ss) && Goading(ss, st, t, a) && !st.c.waiting
    ensures Leads(ss, st, acts, t, st', t)
    ensures Flowing(ss, st', t) || (Goading(ss, st', t, a) && Steps(st'.c, a) < Steps(st.c, a))
  {
    hide ChunkRun, Leads, UpOk, DownOk, TransferHead, Flatten;
    acts, st' := ClientTurns(ss, st, t);
    var c := st.c.(now := t);
    TransferTurn(ss, c, t);
    TransferHeadClockwork(ClientConf(ss), c, CE(t, Timeout));
  }

  lemma GoadedAck(c: Client, a: U32)
    requires c.window.base <= a <= c.window.next && c.dups < 3
    ensures var (c', sent) := OnAck(c, a);
            && c'.window.base == a && c'.phase == c.phase && c'.now == c.now && c'.connId == c.connId && c'.addr == c.addr
            && c'.window.next == c.window.next && c'.waiting == c.waiting && c'.exit == c.exit
            && (c'.lastProgress == c.lastProgress || c'.lastProgress == c.now)
            && if c.window.base == a == c.lastAck && c.dups == 2 then sent == c.window.pending && c'.window.timer == c.now
               else Steps(c', a) + 2 <= Steps(c, a)
  {
  }

  // One more copy of the acknowledgement: the third duplicate resends the window.
  lemma GoadAck(ss: Session, st: System, t: nat, a: U32) returns (acts: seq<Action>, st': System)
    requires ValidSession(ss) && Goading(ss, st, t, a) && st.c.waiting
    ensures Leads(ss, st, acts, t, st', t)
    ensures Flowing(ss, st', t) || (Goading(ss, st', t, a) && Steps(st'.c, a) < Steps(st.c, a))
  {
    hide ChunkRun, Leads, UpOk, DownOk, OnAck, Flatten;
    acts, st' := ClientTakes(ss, st, t, ServerPacket(ss, FLAG_ACK, a));
    var c := ClientAt(st.c, t).(addr := Peer);
    GoadedAck(c, a);
    if OnAck(c, a).1 == c.window.pending {
      ChunkRunSends(ss, c.window.pending, c.window.base, OnAck(c, a).1);
    }
  }

  lemma {:induction false} Goad(ss: Session, st: System, t: nat, a: U32) returns (acts: seq<Action>, st': System)
    requires ValidSession(ss) && Goading(ss, st, t, a)
    ensures Leads(ss, st, acts, t, st', t) && Flowing(ss, st', t)
    decreases Steps(st.c, a)
  {
    hide Leads, Flowing, Sound, Steps;
    var a1, st1;
    if st.c.waiting {
      a1, st1 := GoadAck(ss, st, t, a);
    } else {
      a1, st1 := GoadTurn(ss, st, t, a);
    }
    if Flowing(ss, st1, t) {
      acts, st' := a1, st1;
    } else {
      var a2, st2 := Goad(ss, st1, t, a);
      Compose(ss, st, a1, t, st1, t, a2, st2, t);
      acts, st' := a1 + a2, st2;
    }
  }

  // A turn with room and input left sends at least one new chunk.
  lemma NewDataIsSent(ss: Session, c: Client, t: nat)
    requires ValidSession(ss) && ClientInv(ss.isn, ss.chunks, c) && NewData(c) && !c.waiting
    requires c.now == t && ClientPatient(ss, c, t)
    ensures c.window.next < TransferHead(ClientConf(ss), c, CE(t, Timeout)).0.window.next
  {
    hide Refill, ChunkRun;
    RefillKeeps(ss.isn, ss.chunks, c, CE(t, Timeout));
    RefillFaultless(ss.isn, ss.chunks, c, CE(t, Timeout));
  }

  // The client, with chunks pending and new ones to send, and what its turn leaves it with.
  lemma NewDataTurn(ss: Session, st: System, t: nat) returns (acts: seq<Action>, st': System)
    requires ValidSession(ss) && Restartable(ss, st, t) && NewData(st.c) && st.c.window.base < st.c.window.next
    ensures Leads(ss, st, acts, t, st', t) && Sound(ss, st') && st'.s == st.s && st.s.phase == Receiving
    ensures Flowing(ss, st', t)
            || (&& st'.c.phase == Transfer && st'.c.waiting && st'.c.addr == Peer && ClientPatient(ss, st'.c, t) && st'.c.now == t
                && st'.c.window.base == st.c.window.base && st.c.window.next < st'.c.window.next
                && (forall i: U32 :: st.c.window.next <= i < st'.c.window.next && First(ss) <= i < End(ss) ==> Data(ss, i) in st'.toServer))
  {
    hide ChunkRun, Leads, UpOk, DownOk, TransferHead, Flatten;
    acts, st' := ClientTurns(ss, st, t);
    var c := st.c.(now := t);
    TransferTurn(ss, c, t);
    NewDataIsSent(ss, c, t);
    TransferHeadClockwork(ClientConf(ss), c, CE(t, Timeout));
  }

  // The server's answer to a new chunk tells the client where to go on: past
  // that chunk if it was the one expected, and back to the gap otherwise.
  lemma RestartNewData(ss: Session, st: System, t: nat) returns (acts: seq<Action>, st': System)
    requires ValidSession(ss) && Restartable(ss, st, t) && NewData(st.c) && st.c.window.base < st.c.window.next
    ensures Leads(ss, st, acts, t, st', t) && Flowing(ss, st', t)
  {
    hide ChunkRun, Leads, UpOk, DownOk, Flatten, OnAck, ClockInv;
    var a1, st1 := NewDataTurn(ss, st, t);
    if Flowing(ss, st1, t) {
      return a1, st1;
    }
    var a2, st2 := ServerTakes(ss, st1, t, Data(ss, st.c.window.next));
    Compose(ss, st, a1, t, st1, t, a2, st2, t);
    var a := st2.s.ackNum;
    assert ServerPacket(ss, FLAG_ACK, a) in st2.toClient;
    var a3, st3;
    if a < st.c.window.next {
      a3, st3 := Goad(ss, st2, t, a);
    } else {
      a3, st3 := ClientTakes(ss, st2, t, ServerPacket(ss, FLAG_ACK, a));
      AckMovesPast(ClientAt(st2.c, t).(addr := Peer), a);
    }
    Compose(ss, st, a1 + a2, t, st2, t, a3, st3, t);
    acts, st' := a1 + a2 + a3, st3;
  }

  lemma AckMovesPast(c: Client, a: U32)
    requires c.window.base < a <= c.window.next
    ensures var c' := OnAck(c, a).0;
            && c'.window.base == a && c'.window.next == c.window.next && c'.phase == c.phase && c'.now == c.now
            && c'.connId == c.connId && c'.addr == c.addr && c'.waiting == c.waiting && c'.exit == c.exit
            && (a < c.window.next ==> c'.window.timer == c.now) && !Expired(c'.lastProgress, c.now, 1)
  {
  }

  // The next thing the client sends, at most 250 ms away, gets the session on its way again.
  lemma RestartByClient(ss: Session, st: System, t: nat) returns (acts: seq<Action>, st': System, to: nat)
    requires ValidSession(ss) && Restartable(ss, st, t)
    ensures Leads(ss, st, acts, t, st', to) && Flowing(ss, st', to) && to <= t + RETRANSMIT_INTERVAL_MS
  {
    hide Leads, Sound, InFlight, Flowing, ClientInTime, Alive;
    if st.c.phase == Transfer && st.c.waiting { WaitingFacts(ss, st, t); }
    if st.c.phase == SynSent {
      acts, st', to := RestartSyn(ss, st, t);
    } else if st.c.phase == Transfer && st.c.waiting {
      acts, st', to := RestartWaiting(ss, st, t);
    } else if st.c.phase == Transfer && st.c.window.base < st.c.window.next {
      if NewData(st.c) {
        acts, st' := RestartNewData(ss, st, t);
        to := t;
      } else {
        acts, st', to := RestartTransfer(ss, st, t);
      }
    } else if st.c.phase == FinWait && st.c.waiting {
      acts, st', to := RestartFinWait(ss, st, t);
    } else {
      RestartNow(ss, st, t);
      acts, st', to := [], st, t;
    }
  }

  lemma WaitingFacts(ss: Session, st: System, t: nat)
    requires ValidSession(ss) && Sound(ss, st) && st.c.phase == Transfer && st.c.waiting && st.c.now <= t
    ensures st.c.deadline == st.c.window.timer + RETRANSMIT_INTERVAL_MS && Max(t, st.c.deadline) <= t + RETRANSMIT_INTERVAL_MS
    ensures !NewData(st.c) && st.c.window.base < st.c.window.next
  {
    hide ChunkRun, UpOk, DownOk, Flatten;
  }

  lemma TakesFinAck(ss: Session, st: System, t: nat) returns (acts: seq<Action>, st': System)
    requires ValidSession(ss) && Sound(ss, st) && Alive(st) && st.c.phase == FinWait && st.c.waiting
    requires st.s.phase == LastAck && ServerPatient(ss, st.s, t) && Control(st.s, FLAG_FIN_ACK) in st.toClient
    requires st.c.now <= t && st.s.now <= t && ss.clientTimeout > 0 && ss.serverTimeout > 0
    ensures Leads(ss, st, acts, t, st', t) && Flowing(ss, st', t)
  {
    hide ChunkRun, Leads, UpOk, DownOk, Flatten;
    var finAck := ServerPacket(ss, FLAG_FIN_ACK, End(ss) + 1);
    assert finAck in st.toClient;
    acts, st' := ClientTakes(ss, st, t, finAck);
  }

  // The server's next FIN+ACK, at most 250 ms away, is taken by the client.
  lemma RestartByServer(ss: Session, st: System, t: nat) returns (acts: seq<Action>, st': System, to: nat)
    requires ValidSession(ss) && Sound(ss, st) && Alive(st) && ServerInTime(ss, st, t) && st.c.phase == FinWait
    requires st.c.now <= t && st.s.now <= t && ss.clientTimeout > 0 && ss.serverTimeout > 0
    ensures Leads(ss, st, acts, t, st', to) && Flowing(ss, st', to) && to <= t + RETRANSMIT_INTERVAL_MS
  {
    hide ChunkRun, Leads, UpOk, DownOk, Flatten;
    var a1, st1 := [], st;
    if !st.c.waiting {
      a1, st1 := ClientTurns(ss, st, t);
    } else {
      NoStep(ss, st, t);
    }
    var a2, st2 := ServerWaits(ss, st1, t);
    Compose(ss, st, a1, t, st1, t, a2, st2, t);
    to := Max(t, st2.s.deadline);
    Extend(ss, st, a1 + a2, t, st2, t, to);
    var a3, st3 := ServerTimesOut(ss, st2, to);
    Compose(ss, st, a1 + a2, t, st2, to, a3, st3, to);
    var a4, st4 := TakesFinAck(ss, st3, to);
    Compose(ss, st, a1 + a2 + a3, t, st3, to, a4, st4, to);
    acts, st' := a1 + a2 + a3 + a4, st4;
  }
}
