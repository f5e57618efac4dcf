// What holds in every run of client, server and network.

module Safety {
  import opened Wrappers
  import opened Wire
  import opened SenderWindow
  import opened ClientMachine
  import opened ServerMachine
  import opened Network
  import opened Invariant

  ghost predicate Reachable(ss: Session, st: System)
  {
    exists clientNow: nat, serverNow: nat, acts: seq<Action> ::
      CanRun(ss, Start(ss, clientNow, serverNow), acts) && st == Run(ss, Start(ss, clientNow, serverNow), acts)
  }

  lemma ReachableInv(ss: Session, st: System)
    requires ValidSession(ss) && Reachable(ss, st)
    ensures Inv(ss, st)
  {
    hide Inv, CanRun, Run;
    var clientNow: nat, serverNow: nat, acts: seq<Action> :|
      CanRun(ss, Start(ss, clientNow, serverNow), acts) && st == Run(ss, Start(ss, clientNow, serverNow), acts);
    StartInv(ss, clientNow, serverNow);
    RunKeeps(ss, Start(ss, clientNow, serverNow), acts);
  }

  // The output is always a prefix of the input, and until the server accepts
  // the FIN it is exactly the chunks its counter has moved past, in order.
  lemma OutputIsPrefix(ss: Session, st: System)
    requires ValidSession(ss) && Reachable(ss, st)
    ensures st.s.out <= Input(ss)
    ensures st.s.phase in {Handshaking, Receiving} ==>
              && First(ss) <= st.s.ackNum <= End(ss)
              && st.s.out == Flatten(ss.chunks[..st.s.ackNum - First(ss)])
    ensures st.s.phase == Listening ==> st.s.out == []
  {
    ReachableInv(ss, st);
    OutSoFar(ss, st.s);
  }

  // A machine that reached its closing phase, or returns EX_OK, implies a complete output.
  lemma CleanCompletion(ss: Session, st: System, fileClosed: bool, socketClosed: bool)
    requires ValidSession(ss) && Reachable(ss, st)
    ensures st.s.phase == LastAck || st.c.phase == TimeWait ==> st.s.out == Input(ss)
    ensures st.c.phase == Done && ClientExit(st.c, fileClosed, socketClosed) == EX_OK ==> st.s.out == Input(ss)
    ensures st.s.phase == Finished && ServerExit(st.s, fileClosed, socketClosed) == EX_OK ==> st.s.out == Input(ss)
  {
    hide Input, Flatten, ClientInv;
    ReachableInv(ss, st);
    OutSoFar(ss, st.s);
  }

  // What each program returns: its machine's own code, unless a file or socket
  // cannot be closed. It returns 0 exactly when all three went well.
  lemma ReturnCodes(c: Client, s: Server, fileClosed: bool, socketClosed: bool)
    ensures ClientExit(c, fileClosed, socketClosed) == 0 <==> c.exit == 0 && fileClosed && socketClosed
    ensures ServerExit(s, fileClosed, socketClosed) == 0 <==> s.exit == 0 && fileClosed && socketClosed
    ensures fileClosed && socketClosed ==> ClientExit(c, fileClosed, socketClosed) == c.exit && ServerExit(s, fileClosed, socketClosed) == s.exit
    ensures !socketClosed ==> ClientExit(c, fileClosed, socketClosed) == 71 == ServerExit(s, fileClosed, socketClosed)
    ensures socketClosed && !fileClosed ==> ClientExit(c, fileClosed, socketClosed) == 74 == ServerExit(s, fileClosed, socketClosed)
  {
  }

  // The Go-Back-N invariant of the transfer phase.
  lemma GoBackN(ss: Session, st: System)
    requires ValidSession(ss) && Reachable(ss, st)
    ensures st.c.phase == Transfer ==>
              st.c.window.base <= st.s.ackNum <= st.c.window.next <= st.c.window.base + 30
    ensures forall p :: p in st.toClient && p.flags == FLAG_ACK ==> p.ackNum <= st.s.ackNum
    ensures forall p :: p in st.toServer && p.flags == FLAG_DATA ==>
              First(ss) <= p.seqNum < End(ss) && p.payload == ss.chunks[p.seqNum - First(ss)]
    ensures forall p :: p in st.toServer && p.flags == FLAG_DATA && st.c.phase == Transfer ==> p.seqNum < st.c.window.next
  {
    hide ChunkRun, ServerInv;
    ReachableInv(ss, st);
  }

  // Past SYN_SENT both sides agree on the connection id and on both initial
  // numbers; the server receives data only after its SYN+ACK was accepted.
  lemma HandshakeAgreement(ss: Session, st: System)
    requires ValidSession(ss) && Reachable(ss, st)
    ensures st.c.phase in {Established, Transfer, FinWait, TimeWait} ==>
              && st.c.connId == st.s.connId == ss.connId
              && st.s.seqNum == ss.serverIsn && st.c.ackNum == st.s.seqNum + 1
              && First(ss) <= st.s.ackNum <= End(ss) + 1
              && st.s.phase != Listening
    ensures st.s.phase in {Receiving, LastAck} ==> st.c.connId == ss.connId && st.c.ackNum == ss.serverIsn + 1
                                                   && st.c.phase !in {ClientPhase.Closed, SynSent}
  {
    hide SenderInv, Flatten;
    ReachableInv(ss, st);
  }

  // The packet the server's LAST_ACK phase takes as the closing acknowledgement.
  predicate ClosesSession(s: Server, p: Packet)
  {
    p.flags == FLAG_ACK && p.connId == s.connId && p.ackNum == Add32(s.seqNum, 1) && p.seqNum == s.ackNum
  }

  // A delayed handshake ACK is never taken for the closing one: what closes the
  // session was sent by a client that had accepted FIN+ACK.
  lemma PhaseSeparation(ss: Session, st: System, p: Packet)
    requires ValidSession(ss) && Reachable(ss, st)
    requires st.s.phase == LastAck && (p in st.toServer || Foreign(ss, p)) && ClosesSession(st.s, p)
    ensures p in st.toServer && p.seqNum == End(ss) + 1 && p.seqNum != First(ss)
    ensures Closing(st.c) && st.c.connId == ss.connId
  {
    hide ClientInv;
    ReachableInv(ss, st);
  }

  // Every way out of LAST_ACK, with its exit code. Each leaves a complete output,
  // and a received packet ends the phase only as that acknowledgement, or when
  // the FIN+ACK it calls for cannot be sent.
  lemma LastAckExits(ss: Session, st: System, e: ServerEnv)
    requires ValidSession(ss) && Reachable(ss, st) && Enabled(ss, st, ServerActs(e)) && st.s.phase == LastAck
    ensures var s' := Apply(ss, st, ServerActs(e)).s;
            && s'.out == Input(ss) && s'.phase in {LastAck, Finished}
            && (s'.phase == Finished ==>
                  if !st.s.waiting then
                    if e.stop then s'.exit == EX_SOFTWARE
                    else Expired(st.s.lastProgress, e.t, ss.serverTimeout) && s'.exit == EX_PROTOCOL
                  else match e.outcome
                    case Timeout => s'.exit == EX_OK
                    case WaitError(stopped) => s'.exit == if stopped then EX_OK else EX_OSERR
                    case Recv(p, _) =>
                      if ClosesSession(st.s, p) then p in st.toServer && Closing(st.c) && s'.exit == EX_OK
                      else p.flags == FLAG_FIN && !e.sendOk && s'.exit == EX_OSERR
                    case _ => false)
            && (st.s.waiting && e.outcome.Recv? && ClosesSession(st.s, e.outcome.p) ==> s'.phase == Finished)
  {
    hide ClientInv, Flatten, Input;
    ReachableInv(ss, st);
    if st.s.waiting && e.outcome.Recv? && ClosesSession(st.s, e.outcome.p) {
      PhaseSeparation(ss, st, e.outcome.p);
    }
  }

  // Every 32-bit sum either machine forms equals its unbounded value; where a
  // foreign number goes into a sum, the comparison made with it does.
  lemma NoWraparound(ss: Session, st: System)
    requires ValidSession(ss) && Reachable(ss, st)
    ensures st.c.phase == Transfer ==>
              && Add32(st.c.window.base, WINDOW_SIZE) == st.c.window.base + WINDOW_SIZE
              && Add32(st.c.window.next, 1) == st.c.window.next + 1
    ensures st.c.phase in {SynSent, Established, FinWait, TimeWait} ==> Add32(st.c.seqNum, 1) == st.c.seqNum + 1
    ensures Add32(st.s.ackNum, 1) == st.s.ackNum + 1
    ensures st.s.phase in {Handshaking, Receiving, LastAck} ==> Add32(st.s.seqNum, 1) == st.s.seqNum + 1
    ensures forall p :: p in st.toServer || p in st.toClient ==> Add32(p.seqNum, 1) == p.seqNum + 1
    ensures forall p: Packet :: st.s.phase in {Handshaking, LastAck} ==>
              (Add32(p.seqNum, 1) == st.s.ackNum <==> p.seqNum + 1 == st.s.ackNum)
  {
    hide ChunkRun, Flatten;
    ReachableInv(ss, st);
    forall p | p in st.toServer || p in st.toClient ensures p.seqNum < 0xFFFF_FFFF {
      if p in st.toServer { assert UpOk(ss, st.c, st.s, p); } else { assert DownOk(ss, st.s, p); }
    }
  }
}
