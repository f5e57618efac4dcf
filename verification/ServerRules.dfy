// What the server does with every packet, sent in this session or not, whoever
// it comes from: in each phase exactly which packets move it, refresh its
// watchdog, are written or are answered, in terms of the session's numbers.

module ServerRules {
  import opened Wire
  import opened ClientMachine
  import opened ServerMachine
  import opened Network
  import opened Invariant
  import opened Safety

  // lastProgress after a step that marks progress or does not; a clock reading of 0 marks nothing.
  function Refreshed(was: nat, marks: bool, t: nat): nat
  {
    if marks && t != 0 then t else was
  }

  ghost predicate TakesPacket(ss: Session, st: System, e: ServerEnv)
  {
    ValidSession(ss) && Reachable(ss, st) && st.s.waiting && e.outcome.Recv?
  }

  lemma ServerFacts(ss: Session, st: System)
    requires ValidSession(ss) && Reachable(ss, st)
    ensures ServerInv(ss, st.s)
  {
    hide ClientInv, Flatten, Reachable;
    ReachableInv(ss, st);
  }

  // LISTEN: a SYN, and nothing else, draws the numbers of the session.
  lemma InListen(ss: Session, st: System, e: ServerEnv)
    requires TakesPacket(ss, st, e) && st.s.phase == Listening
    ensures var p := e.outcome.p; var (s', sent) := ServerStep(ServerConf(ss), st.s, e);
            && !s'.waiting && s'.now == e.t && s'.addr == e.outcome.src && s'.out == []
            && (s'.phase == Handshaking <==> p.flags == 1 && e.sendOk)
            && (s'.phase == Finished <==> p.flags == 1 && !e.sendOk)
            && s'.phase in {Listening, Handshaking, Finished} && (s'.phase == Finished ==> s'.exit == 71)
            && s'.lastProgress == Refreshed(st.s.lastProgress, p.flags == 1 && e.sendOk, e.t)
            && (p.flags == 1 ==> s'.seqNum == ss.serverIsn && s'.connId == ss.connId && s'.ackNum == (p.seqNum + 1) % 0x1_0000_0000)
            && (p.flags != 1 ==> s'.ackNum == 0)
            && sent == if p.flags == 1 && e.sendOk then [Packet(ss.serverIsn, (p.seqNum + 1) % 0x1_0000_0000, ss.connId, 3, [])]
                       else []
  {
    hide Reachable, Flatten;
    ServerFacts(ss, st);
  }

  // The handshake ACK, or DATA under the client's first number.
  predicate Opens(ss: Session, p: Packet)
  {
    p.flags in {2, 8} && p.connId == ss.connId && p.seqNum == ss.isn + 1 && p.ackNum == ss.serverIsn + 1
  }

  predicate AsksAgain(ss: Session, p: Packet)
  {
    p.flags == 1 && p.seqNum == ss.isn
  }

  // HANDSHAKE: what opens the session is neither written nor counted nor
  // answered; only the session's own SYN is answered, and marks no progress.
  lemma InHandshake(ss: Session, st: System, e: ServerEnv)
    requires TakesPacket(ss, st, e) && st.s.phase == Handshaking
    ensures var p := e.outcome.p; var (s', sent) := ServerStep(ServerConf(ss), st.s, e);
            && !s'.waiting && s'.now == e.t && s'.addr == e.outcome.src && Numbered(ss, s')
            && (s'.phase == Receiving <==> Opens(ss, p))
            && (s'.phase == Finished <==> AsksAgain(ss, p) && !e.sendOk)
            && s'.phase in {Handshaking, Receiving, Finished} && (s'.phase == Finished ==> s'.exit == 71)
            && s'.lastProgress == Refreshed(st.s.lastProgress, Opens(ss, p), e.t)
            && s'.ackNum == ss.isn + 1 && s'.out == []
            && sent == if AsksAgain(ss, p) && e.sendOk then [Packet(ss.serverIsn, ss.isn + 1, ss.connId, 3, [])] else []
  {
    hide Reachable, Flatten;
    ServerFacts(ss, st);
  }

  // Of the packets that can arrive, those that open it are the client's ACK and its first chunk.
  lemma HandshakeEnds(ss: Session, st: System, e: ServerEnv)
    requires TakesPacket(ss, st, e) && st.s.phase == Handshaking && Enabled(ss, st, ServerActs(e))
    ensures var p := e.outcome.p; var s' := Apply(ss, st, ServerActs(e)).s;
            s'.phase == Receiving <==>
              p in st.toServer && (IsClientAck(ss, p, First(ss)) || (IsData(ss, p) && p.seqNum == First(ss)))
  {
    hide Flatten, ClientInv, ServerStep, Reachable;
    InHandshake(ss, st, e);
    ReachableInv(ss, st);
  }

  // ESTABLISHED: DATA of this connection is always acknowledged, and written
  // when it carries the next number; so far written are the chunks below ackNum.
  lemma InEstablished(ss: Session, st: System, e: ServerEnv)
    requires TakesPacket(ss, st, e) && st.s.phase == Receiving
    ensures var p := e.outcome.p; var (s', sent) := ServerStep(ServerConf(ss), st.s, e);
            var k := st.s.ackNum;
            var data := p.flags == 8 && p.connId == ss.connId;
            var fin := p.flags == 4 && p.connId == ss.connId && p.seqNum == k;
            var short := data && p.seqNum == k && e.written < |p.payload|;
            && !s'.waiting && s'.now == e.t && s'.addr == e.outcome.src && Numbered(ss, s')
            && (s'.phase == LastAck <==> fin && e.sendOk)
            && (s'.phase == Finished <==> short || ((fin || data) && !e.sendOk))
            && s'.phase in {Receiving, LastAck, Finished} && (s'.phase == Finished ==> s'.exit == if short then 74 else 71)
            && s'.lastProgress == Refreshed(st.s.lastProgress, (fin && e.sendOk) || (data && p.seqNum >= k && !short), e.t)
            && s'.out == (if short then st.s.out + p.payload[..e.written]
                          else if data && p.seqNum == k then st.s.out + p.payload else st.s.out)
            && s'.ackNum == (if fin || (data && p.seqNum == k && !short) then k + 1 else k)
            && sent == if fin && e.sendOk then [Packet(ss.serverIsn, k + 1, ss.connId, 6, [])]
                       else if data && !short && e.sendOk then [Packet(ss.serverIsn, s'.ackNum, ss.connId, 2, [])]
                       else []
  {
    hide Reachable, Flatten;
    ServerFacts(ss, st);
  }

  // LAST_ACK: FIN again is answered again; the closing ACK carries the number past FIN.
  lemma InLastAck(ss: Session, st: System, e: ServerEnv)
    requires TakesPacket(ss, st, e) && st.s.phase == LastAck
    ensures var p := e.outcome.p; var (s', sent) := ServerStep(ServerConf(ss), st.s, e);
            var fin := p.flags == 4 && p.connId == ss.connId && p.seqNum == End(ss);
            var ack := p.flags == 2 && p.connId == ss.connId && p.seqNum == End(ss) + 1 && p.ackNum == ss.serverIsn + 1;
            && !s'.waiting && s'.now == e.t && s'.addr == e.outcome.src && s'.out == st.s.out && s'.ackNum == st.s.ackNum
            && (s'.phase == Finished <==> ack || (fin && !e.sendOk)) && s'.phase in {LastAck, Finished}
            && (s'.phase == Finished ==> s'.exit == if ack then 0 else 71)
            && s'.lastProgress == Refreshed(st.s.lastProgress, ack, e.t)
            && sent == if fin && e.sendOk then [Packet(ss.serverIsn, End(ss) + 1, ss.connId, 6, [])] else []
  {
    hide Reachable, Flatten;
    ServerFacts(ss, st);
  }

  // A wait that ends without a packet: what is sent, and every exit code.
  lemma WithoutPacket(ss: Session, st: System, e: ServerEnv)
    requires ValidSession(ss) && Reachable(ss, st) && st.s.waiting && st.s.phase != Finished && !e.outcome.Recv?
    ensures var (s', sent) := ServerStep(ServerConf(ss), st.s, e);
            var last := st.s.phase == LastAck;
            var late := Expired(st.s.lastProgress, e.t, ss.serverTimeout);
            && s'.out == st.s.out && s'.ackNum == st.s.ackNum && s'.lastProgress == st.s.lastProgress
            && !s'.waiting && s'.now == e.t && (s'.phase != Finished ==> s'.phase == st.s.phase)
            && s'.addr == (if e.outcome.Malformed? then e.outcome.src else st.s.addr)
            && (s'.phase == Finished <==> e.outcome.WaitError? || (e.outcome.Timeout? && (late || (last && !e.sendOk))))
            && (s'.phase == Finished ==>
                  s'.exit == if e.outcome.Timeout? then (if last then 0 else 76)
                             else if last && e.outcome.stopped then 0 else 71)
            && sent == if last && e.outcome.Timeout? && !late && e.sendOk
                       then [Packet(ss.serverIsn, End(ss) + 1, ss.connId, 6, [])] else []
  {
    hide Reachable, Flatten, Expired;
    ServerFacts(ss, st);
  }

  // The head of every handler: a stop request, the watchdog, or a wait of 250 ms.
  lemma BeforeWait(ss: Session, s: Server, e: ServerEnv)
    requires !s.waiting && s.phase != Finished
    ensures var (s', sent) := ServerStep(ServerConf(ss), s, e);
            var late := Expired(s.lastProgress, e.t, ss.serverTimeout);
            && sent == [] && s'.now == e.t
            && (s'.phase == Finished <==> e.stop || late)
            && (s'.phase == Finished ==> s'.exit == if e.stop then 70 else 76)
            && (s'.phase != Finished ==> s'.waiting && s'.deadline == e.t + 250)
            && s' == s.(now := s'.now, phase := s'.phase, exit := s'.exit, waiting := s'.waiting, deadline := s'.deadline)
            && (s'.phase != Finished ==> s'.phase == s.phase && s'.exit == s.exit)
  {
    hide Expired;
  }
}
