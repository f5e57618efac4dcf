// One client, one server and an unreliable network between them.

module Network {
  import opened Wire
  import opened SenderWindow
  import opened ClientMachine
  import opened ServerMachine

  // The draws of a run: the input as read_chunk cuts it up, both initial
  // sequence numbers, the connection id, and the two watchdog settings.
  datatype Session = Session(chunks: seq<Chunk>, isn: U32, serverIsn: U32, connId: U16, clientTimeout: int, serverTimeout: int)

  ghost predicate ValidSession(ss: Session)
  {
    && ss.isn < ISN_LIMIT && ss.serverIsn < ISN_LIMIT && 1 <= ss.connId <= 60000
    && |ss.chunks| <= 0x1_0000_0000 - 10031
  }

  function ClientConf(ss: Session): ClientConfig
  {
    ClientConfig(ss.clientTimeout, ss.isn)
  }

  function ServerConf(ss: Session): ServerConfig
  {
    ServerConfig(ss.serverTimeout, ss.serverIsn, ss.connId)
  }

  // toServer and toClient hold every packet sent to the other party's address
  // and not lost for good. A delivery leaves the packet in place, so copies and
  // reorderings are free.
  datatype System = System(c: Client, s: Server, toServer: set<Packet>, toClient: set<Packet>)

  datatype Action = ClientActs(ce: ClientEnv) | ServerActs(se: ServerEnv) | Lose(up: set<Packet>, down: set<Packet>)

  // A packet of no part of this session. Foreign SYNs reaching LISTEN are out of scope.
  predicate Foreign(ss: Session, p: Packet)
  {
    p.connId != ss.connId && p.flags != FLAG_SYN_ACK
  }

  // What a step may see: a packet of the session that was sent here, or a
  // foreign one. Everything else, the clock readings included, is arbitrary.
  predicate Enabled(ss: Session, st: System, a: Action)
  {
    match a
    case ClientActs(e) =>
      && st.c.phase != Done
      && (st.c.waiting && e.outcome.Recv? ==>
            (e.outcome.p in st.toClient && e.outcome.src == Peer) || Foreign(ss, e.outcome.p))
    case ServerActs(e) =>
      && st.s.phase != Finished
      && (st.s.waiting && e.outcome.Recv? ==>
            || (e.outcome.p in st.toServer && e.outcome.src == Peer)
            || (Foreign(ss, e.outcome.p) && (e.outcome.p.flags == FLAG_SYN ==> st.s.phase != Listening)))
    case Lose(_, _) => true
  }

  // What of sent gets under way to the other party: sends go to the stored
  // address, and no step that sends changes it after its first send.
  function Emitted(addr: Host, sent: seq<Packet>): set<Packet>
  {
    if addr == Peer then set p | p in sent else {}
  }

  function Apply(ss: Session, st: System, a: Action): System
  {
    match a
    case ClientActs(e) =>
      var (c, sent) := ClientStep(ClientConf(ss), st.c, e);
      st.(c := c, toServer := st.toServer + Emitted(c.addr, sent))
    case ServerActs(e) =>
      var (s, sent) := ServerStep(ServerConf(ss), st.s, e);
      st.(s := s, toClient := st.toClient + Emitted(s.addr, sent))
    case Lose(up, down) =>
      st.(toServer := st.toServer - up, toClient := st.toClient - down)
  }

  function Start(ss: Session, clientNow: nat, serverNow: nat): System
  {
    System(ClientStart(ss.chunks, clientNow), ServerStart(serverNow), {}, {})
  }

  predicate CanRun(ss: Session, st: System, acts: seq<Action>)
    decreases |acts|
  {
    acts == [] || (Enabled(ss, st, acts[0]) && CanRun(ss, Apply(ss, st, acts[0]), acts[1..]))
  }

  function Run(ss: Session, st: System, acts: seq<Action>): System
    decreases |acts|
  {
    if acts == [] then st else Run(ss, Apply(ss, st, acts[0]), acts[1..])
  }

  // ---- the packets of a session ----

  function First(ss: Session): nat
  {
    ss.isn + 1
  }

  // The number of the FIN, one past the last chunk.
  function End(ss: Session): nat
  {
    First(ss) + |ss.chunks|
  }

  function Flatten(chunks: seq<Chunk>): seq<Byte>
  {
    if chunks == [] then [] else Flatten(chunks[..|chunks| - 1]) + chunks[|chunks| - 1]
  }

  function Input(ss: Session): seq<Byte>
  {
    Flatten(ss.chunks)
  }

  ghost predicate IsSyn(ss: Session, p: Packet)
  {
    p == Packet(ss.isn, 0, 0, FLAG_SYN, [])
  }

  // The client's answers: to SYN+ACK under its first number, to FIN+ACK under its last.
  ghost predicate IsClientAck(ss: Session, p: Packet, seqNum: nat)
  {
    p.seqNum == seqNum && p.ackNum == ss.serverIsn + 1 && p.connId == ss.connId && p.flags == FLAG_ACK && p.payload == []
  }

  // Data packets carry chunk s - First under number s.
  ghost predicate IsData(ss: Session, p: Packet)
  {
    && p.flags == FLAG_DATA && First(ss) <= p.seqNum < End(ss) && p.connId == ss.connId && p.ackNum == ss.serverIsn + 1
    && p.payload == ss.chunks[p.seqNum - First(ss)]
  }

  ghost predicate IsFin(ss: Session, p: Packet)
  {
    p.seqNum == End(ss) && p.ackNum == ss.serverIsn + 1 && p.connId == ss.connId && p.flags == FLAG_FIN && p.payload == []
  }

  ghost predicate FromServer(ss: Session, p: Packet, flags: Byte, ackNum: nat)
  {
    p.seqNum == ss.serverIsn && p.ackNum == ackNum && p.connId == ss.connId && p.flags == flags && p.payload == []
  }
}
