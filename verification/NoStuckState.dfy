// No stuck state: which sessions can still be completed once everything in transit is lost.

module NoStuckState {
  import opened Wrappers
  import opened Wire
  import opened SenderWindow
  import opened ClientMachine
  import opened ServerMachine
  import opened Network
  import opened Invariant
  import opened Safety
  import opened Clocks
  import opened Continuation
  import opened Progress
  import opened Restart
  import opened Stuck

  // Everything in transit is lost.
  function Emptied(st: System): System
  {
    st.(toServer := {}, toClient := {})
  }

  // ---- in time ----

  // TIME_WAIT runs out undisturbed.
  lemma ClientFinishes(ss: Session, st: System, t: nat) returns (acts: seq<Action>, st': System, to: nat)
    requires ValidSession(ss) && Sound(ss, st) && st.c.phase == TimeWait && st.c.now <= t
    requires st.s.phase == Finished && st.s.exit == EX_OK
    ensures Leads(ss, st, acts, t, st', to) && Complete(ss, st') && to <= t + TIME_WAIT_DURATION_MS
  {
    hide ChunkRun, Leads, UpOk, DownOk, Flatten;
    var a1, st1 := [], st;
    if !st.c.waiting {
      a1, st1 := ClientTurns(ss, st, t);
    } else {
      NoStep(ss, st, t);
    }
    to := Max(t, st1.c.deadline);
    Extend(ss, st, a1, t, st1, t, to);
    var a2, st2 := ClientTimesOut(ss, st1, to);
    Compose(ss, st, a1, t, st1, to, a2, st2, to);
    acts, st' := a1 + a2, st2;
  }

  // A server left alone in LAST_ACK resends FIN+ACK until its watchdog lets it
  // go with EX_OK, whoever its answers go to.
  lemma {:induction false} ServerFinishes(ss: Session, st: System, t: nat) returns (acts: seq<Action>, st': System, to: nat)
    requires ValidSession(ss) && Sound(ss, st) && Closing(st.c) && ss.serverTimeout > 0
    requires st.s.phase == LastAck && st.s.now <= t && Listens(ss, st.s, t)
    ensures Leads(ss, st, acts, t, st', to) && t <= to && Sound(ss, st')
    ensures st'.c == st.c && st'.s.phase == Finished && st'.s.exit == EX_OK
    decreases st.s.lastProgress + 1000 * ss.serverTimeout - t, if st.s.waiting then 1 else 0
  {
    hide Inv, Leads;
    var a1, st1 := ServerWaits(ss, st, t);
    var at := Max(t, st1.s.deadline);
    Extend(ss, st, a1, t, st1, t, at);
    var a2, st2 := ServerTimesOut(ss, st1, at);
    Compose(ss, st, a1, t, st1, at, a2, st2, at);
    if Expired(st1.s.lastProgress, at, ss.serverTimeout) {
      acts, st', to := a1 + a2, st2, at;
    } else {
      var a3, st3, end := ServerFinishes(ss, st2, at);
      Compose(ss, st, a1 + a2, t, st2, at, a3, st3, end);
      acts, st', to := a1 + a2 + a3, st3, end;
    }
  }

  // What is left once the client has had its FIN+ACK.
  lemma LateFinish(ss: Session, st: System, t: nat) returns (acts: seq<Action>, st': System, to: nat)
    requires ValidSession(ss) && Sound(ss, st) && Alive(st) && ss.serverTimeout > 0
    requires Closing(st.c) && st.c.now <= t && st.s.now <= t && InTime(ss, st, t)
    ensures Leads(ss, st, acts, t, st', to) && Complete(ss, st')
  {
    hide Leads, Sound, Flatten;
    var a1, st1, t1 := [], st, t;
    if st.s.phase == LastAck {
      a1, st1, t1 := ServerFinishes(ss, st, t);
    } else {
      NoStep(ss, st, t);
      ClosingPhases(ss, st);
    }
    if st1.c.phase == TimeWait {
      var a2, st2, t2 := ClientFinishes(ss, st1, t1);
      Compose(ss, st, a1, t, st1, t1, a2, st2, t2);
      acts, st', to := a1 + a2, st2, t2;
    } else {
      BothDone(ss, st1);
      acts, st', to := a1, st1, t1;
    }
  }

  lemma ClosingPhases(ss: Session, st: System)
    requires ValidSession(ss) && Sound(ss, st) && Alive(st) && Closing(st.c)
    ensures st.s.phase in {LastAck, Finished}
  {
    hide ChunkRun, UpOk, DownOk, Flatten;
  }

  lemma BothDone(ss: Session, st: System)
    requires ValidSession(ss) && Sound(ss, st)
    requires st.c.phase == Done && st.c.exit == EX_OK && st.s.phase == Finished && st.s.exit == EX_OK
    ensures Complete(ss, st)
  {
    hide ChunkRun, UpOk, DownOk, Flatten;
  }

  lemma FinWaitThen(ss: Session, st: System)
    requires ValidSession(ss) && Sound(ss, st) && !Closing(st.c) && st.s.phase == LastAck
    ensures st.c.phase == FinWait
  {
    hide ChunkRun, UpOk, DownOk, Flatten;
  }

  // Before that, a session in time reaches its end within 250 ms and the TIME_WAIT period.
  lemma RunsToTheEnd(ss: Session, st: System, t: nat) returns (acts: seq<Action>, st': System, to: nat)
    requires ValidSession(ss) && Sound(ss, st) && Alive(st) && Recoverable(ss, st) && InTime(ss, st, t)
    requires !Closing(st.c) && st.c.now <= t && st.s.now <= t && ss.clientTimeout > 0 && ss.serverTimeout > 0
    ensures Leads(ss, st, acts, t, st', to) && Complete(ss, st')
    ensures to <= t + RETRANSMIT_INTERVAL_MS + TIME_WAIT_DURATION_MS
  {
    hide Leads, Sound, InFlight, Complete, Resends, ServerResends, OnCourse, NewData, Expired;
    var a0, st0, a1, st1, t1;
    if ClientInTime(ss, st, t) {
      a0, st0 := ServerWaits(ss, st, t);
      a1, st1, t1 := RestartByClient(ss, st0, t);
    } else {
      FinWaitThen(ss, st);
      NoStep(ss, st, t);
      a0, st0 := [], st;
      a1, st1, t1 := RestartByServer(ss, st, t);
    }
    Compose(ss, st, a0, t, st0, t, a1, st1, t1);
    var a2, st2 := Flow(ss, st1, t1);
    Compose(ss, st, a0 + a1, t, st1, t1, a2, st2, t1);
    var a3, st3, t3 := ClientFinishes(ss, st2, t1);
    Compose(ss, st, a0 + a1 + a2, t, st2, t1, a3, st3, t3);
    acts, st', to := a0 + a1 + a2 + a3, st3, t3;
  }

  // ---- too late ----

  // The case a live session falls under that is not in time, the client not yet closing.
  lemma LateBeforeClose(ss: Session, st: System, t: nat)
    requires ValidSession(ss) && Sound(ss, st) && st.toServer == {} && st.toClient == {}
    requires st.c.now <= t && st.s.now <= t && ss.clientTimeout > 0 && ss.serverTimeout > 0
    requires Alive(st) && !Closing(st.c) && st.s.phase != LastAck && !InTime(ss, st, t)
    ensures var due := Resends(st.c, t);
            || ClientGone(ss, st, t) || ServerGone(ss, st, t) || Mute(ss, st, t, due)
            || HandshakeLate(ss, st, t, due) || TransferLate(ss, st, t, due)
  {
    hide ChunkRun, UpOk, DownOk, Flatten;
  }

  lemma LateInClose(ss: Session, st: System, t: nat)
    requires ValidSession(ss) && Sound(ss, st) && st.toServer == {} && st.toClient == {}
    requires st.c.now <= t && st.s.now <= t && ss.clientTimeout > 0 && ss.serverTimeout > 0
    requires !Closing(st.c) && st.s.phase == LastAck && !InTime(ss, st, t)
    ensures ClientGone(ss, st, t) || ServerGone(ss, st, t) || ClosingLate(ss, st, t, Resends(st.c, t), ServerResends(st.s, t))
  {
    hide Inv;
    FinWaitThen(ss, st);
  }

  lemma Unfinishable(ss: Session, st: System, t: nat)
    requires ValidSession(ss) && Sound(ss, st) && st.toServer == {} && st.toClient == {}
    requires st.c.now <= t && st.s.now <= t && ss.clientTimeout > 0 && ss.serverTimeout > 0
    requires !(Alive(st) && Recoverable(ss, st) && InTime(ss, st, t))
    ensures !CanComplete(ss, st, t)
  {
    hide Inv, Leads, Mute, HandshakeLate, TransferLate, ClosingLate, Complete;
    var dueC, dueS := Resends(st.c, t), ServerResends(st.s, t);
    assert Hopeless(ss, st, t, dueC, dueS) by {
      if Alive(st) && Recoverable(ss, st) && !Closing(st.c) {
        if st.s.phase == LastAck { LateInClose(ss, st, t); } else { LateBeforeClose(ss, st, t); }
      }
    }
    hide Hopeless, Sound;
    forall acts: seq<Action>, st': System, to: nat | Leads(ss, st, acts, t, st', to) ensures !Complete(ss, st') {
      HopelessRun(ss, st, acts, t, dueC, dueS, st', to);
    }
  }

  // ---- the theorem ----

  // Reachable on clocks that start above zero and never fail.
  ghost predicate ReachableOnClocks(ss: Session, st: System)
  {
    exists clientNow: nat, serverNow: nat, acts: seq<Action> ::
      && 0 < clientNow && 0 < serverNow
      && TimelyRun(ss, Start(ss, clientNow, serverNow), acts) && st == Run(ss, Start(ss, clientNow, serverNow), acts)
  }

  lemma ReachableSound(ss: Session, st: System)
    requires ValidSession(ss) && ReachableOnClocks(ss, st)
    ensures Sound(ss, st) && Sound(ss, Emptied(st))
  {
    hide TimelyRun, Run;
    var clientNow: nat, serverNow: nat, acts: seq<Action> :|
      && 0 < clientNow && 0 < serverNow
      && TimelyRun(ss, Start(ss, clientNow, serverNow), acts) && st == Run(ss, Start(ss, clientNow, serverNow), acts);
    StartInv(ss, clientNow, serverNow);
    ClockRunKeeps(ss, Start(ss, clientNow, serverNow), acts);
    hide ClientInv, ServerInv, Cross;
  }

  // Take any reachable state at any instant from there on, and lose everything
  // in transit. The session can still be completed by its own retransmissions,
  // the output then being the input, exactly when neither side has given up,
  // there is something to send or the handshake ACK was not among the losses,
  // and the retransmission comes in time and goes to the right address.
  lemma NoStuckStates(ss: Session, st: System, t: nat)
    requires ValidSession(ss) && ss.clientTimeout > 0 && ss.serverTimeout > 0 && ReachableOnClocks(ss, st)
    requires st.c.now <= t && st.s.now <= t
    ensures CanComplete(ss, Emptied(st), t) <==> Alive(st) && Recoverable(ss, st) && InTime(ss, st, t)
  {
    hide Leads, Sound, Complete, Listens, ClientInTime, ServerInTime;
    var lost := Emptied(st);
    ReachableSound(ss, st);
    EmptiedSame(ss, st, t);
    if !(Alive(st) && Recoverable(ss, st) && InTime(ss, st, t)) {
      Unfinishable(ss, lost, t);
    } else if Closing(st.c) {
      var acts, st', to := LateFinish(ss, lost, t);
    } else {
      var acts, st', to := RunsToTheEnd(ss, lost, t);
    }
  }

  // With that end, and files and sockets closed, both programs return 0; a file
  // that cannot be closed makes its program fail all the same.
  lemma CompleteReturns(ss: Session, st: System, fileClosed: bool)
    requires Complete(ss, st)
    ensures ClientExit(st.c, fileClosed, true) == 0 <==> fileClosed
    ensures ServerExit(st.s, fileClosed, true) == 0 <==> fileClosed
    ensures st.c.phase == Done && st.s.phase == Finished && st.s.out == Input(ss)
  {
    ReturnCodes(st.c, st.s, fileClosed, true);
  }

  // None of the conditions looks at what is in transit.
  lemma EmptiedSame(ss: Session, st: System, t: nat)
    ensures Alive(Emptied(st)) == Alive(st) && Recoverable(ss, Emptied(st)) == Recoverable(ss, st)
    ensures InTime(ss, Emptied(st), t) == InTime(ss, st, t)
  {
  }

  // For a client waiting in transfer: its watchdog has to outlast its timer, its
  // sends have to go to its peer, and the server has to come to its next packet
  // and, if that can only be a copy of what it has, to last a turn longer.
  lemma TransferInTime(ss: Session, st: System, t: nat)
    requires ValidSession(ss) && ss.clientTimeout > 0 && ss.serverTimeout > 0 && ReachableOnClocks(ss, st)
    requires st.c.now <= t && st.s.now <= t && Alive(st) && st.c.phase == Transfer && st.c.waiting
    ensures var due := Max(t, st.c.deadline);
            CanComplete(ss, Emptied(st), t) <==>
              && st.c.addr == Peer && ClientPatient(ss, st.c, due) && Listens(ss, st.s, t)
              && (st.s.ackNum == st.c.window.next ==> ServerPatient(ss, st.s, due))
  {
    hide Leads, Complete, ChunkRun, UpOk, DownOk, Flatten;
    ReachableSound(ss, st);
    NoStuckStates(ss, st, t);
    WaitingFacts(ss, st, t);
  }
}
