// The server state machine (src/server.c) as a step function, in the same
// half-steps as the client: heads up to wait_for_packet, tails after it.

module ServerMachine {
  import opened Wire
  import opened ClientMachine

  datatype ServerPhase = Listening | Handshaking | Receiving | LastAck | Finished

  // addr is the client's address as last overwritten by a received datagram,
  // out the output stream. The phases are SERVER_LISTEN, SERVER_HANDSHAKE,
  // SERVER_ESTABLISHED, SERVER_LAST_ACK and SERVER_DONE.
  datatype Server = Server(
    phase: ServerPhase, seqNum: U32, ackNum: U32, connId: U16, addr: Host, out: seq<Byte>,
    lastProgress: nat, exit: int, now: nat, waiting: bool, deadline: nat)

  // isn and connId are what rand() will yield in LISTEN.
  datatype ServerConfig = ServerConfig(timeout: int, isn: U32, connId: U16)

  // written: how many bytes fwrite can take; fewer than the payload is a write error.
  datatype ServerEnv = ServerEnv(t: nat, stop: bool, outcome: Outcome, sendOk: bool, written: nat)

  function Stop(s: Server, code: int): Server
  {
    s.(phase := Finished, exit := code, waiting := false, deadline := 0)
  }

  function Answering(s: Server, failCode: int, ok: bool, p: Packet): (Server, seq<Packet>)
  {
    if ok then (s, [p]) else (Stop(s, failCode), [])
  }

  function Control(s: Server, flags: Byte): Packet
  {
    Packet(s.seqNum, s.ackNum, s.connId, flags, [])
  }

  function Marked(s: Server): Server
  {
    s.(lastProgress := MarkProgress(s.lastProgress, s.now))
  }

  function ServerStep(cfg: ServerConfig, s: Server, e: ServerEnv): (Server, seq<Packet>)
  {
    if s.phase == Finished then (s, [])
    else if s.waiting then ServerTail(cfg, s.(now := e.t, waiting := false, deadline := 0), e)
    else (ServerHead(cfg, s.(now := e.t), e), [])
  }

  function ServerHead(cfg: ServerConfig, s: Server, e: ServerEnv): Server
  {
    if e.stop then Stop(s, EX_SOFTWARE)
    else if Expired(s.lastProgress, s.now, cfg.timeout) then Stop(s, EX_PROTOCOL)
    else s.(waiting := true, deadline := s.now + RETRANSMIT_INTERVAL_MS)
  }

  function ServerTail(cfg: ServerConfig, s: Server, e: ServerEnv): (Server, seq<Packet>)
  {
    match e.outcome
    case Timeout =>
      if Expired(s.lastProgress, s.now, cfg.timeout) then (Stop(s, if s.phase == LastAck then EX_OK else EX_PROTOCOL), [])
      else if s.phase == LastAck then Answering(s, EX_OK, e.sendOk, Control(s, FLAG_FIN_ACK))
      else (s, [])
    case WaitError(stopped) => (Stop(s, if s.phase == LastAck && stopped then EX_OK else EX_OSERR), [])
    case RecvFailed => (s, [])
    case Malformed(src) => (s.(addr := src), [])
    case Recv(p, src) => ServerReceive(cfg, s.(addr := src), e, p)
  }

  function ServerReceive(cfg: ServerConfig, s: Server, e: ServerEnv, p: Packet): (Server, seq<Packet>)
  {
    match s.phase
    case Listening =>
      if p.flags == FLAG_SYN then
        var s1 := s.(connId := cfg.connId, seqNum := cfg.isn, ackNum := Add32(p.seqNum, 1));
        Answering(if e.sendOk then Marked(s1).(phase := Handshaking) else s1, EX_OSERR, e.sendOk, Control(s1, FLAG_SYN_ACK))
      else (s, [])
    case Handshaking =>
      if p.flags == FLAG_SYN && Add32(p.seqNum, 1) == s.ackNum then
        Answering(s, EX_OSERR, e.sendOk, Control(s, FLAG_SYN_ACK))
      else if p.flags == FLAG_ACK && p.connId == s.connId && p.ackNum == Add32(s.seqNum, 1) && p.seqNum == s.ackNum then
        (Marked(s.(ackNum := p.seqNum, phase := Receiving)), [])
      else if p.flags == FLAG_DATA && p.connId == s.connId && p.seqNum == s.ackNum && p.ackNum == Add32(s.seqNum, 1) then
        (Marked(s.(phase := Receiving)), [])
      else (s, [])
    case Receiving =>
      if p.flags == FLAG_FIN && p.connId == s.connId && p.seqNum == s.ackNum then
        var s1 := s.(ackNum := Add32(p.seqNum, 1));
        Answering(if e.sendOk then Marked(s1).(phase := LastAck) else s1, EX_OSERR, e.sendOk, Control(s1, FLAG_FIN_ACK))
      else if p.flags == FLAG_DATA && p.connId == s.connId then ReceiveData(s, e, p)
      else (s, [])
    case LastAck =>
      if p.flags == FLAG_FIN && p.connId == s.connId && Add32(p.seqNum, 1) == s.ackNum then
        Answering(s, EX_OSERR, e.sendOk, Control(s, FLAG_FIN_ACK))
      else if p.flags == FLAG_ACK && p.connId == s.connId && p.ackNum == Add32(s.seqNum, 1) && p.seqNum == s.ackNum then
        (Marked(s).(phase := Finished), [])
      else (s, [])
    case Finished => (s, [])
  }

  // Writes the next expected chunk, ignores every other, and acknowledges what has been written.
  function ReceiveData(s: Server, e: ServerEnv, p: Packet): (Server, seq<Packet>)
  {
    if p.seqNum == s.ackNum && e.written < |p.payload| then
      (Stop(s.(out := s.out + p.payload[..e.written]), EX_IOERR), [])
    else
      var s1 := if p.seqNum == s.ackNum then Marked(s.(out := s.out + p.payload, ackNum := Add32(s.ackNum, 1)))
                else if p.seqNum > s.ackNum then Marked(s)
                else s;
      Answering(s1, EX_OSERR, e.sendOk, Control(s1, FLAG_ACK))
  }

  function ServerStart(now: nat): Server
  {
    Server(Listening, 0, 0, 0, Stranger, [], now, EX_OK, now, false, 0)
  }

  // The exit code run_server returns after closing its file and socket.
  function ServerExit(s: Server, fileClosed: bool, socketClosed: bool): int
  {
    if !socketClosed then EX_OSERR else if !fileClosed then EX_IOERR else s.exit
  }
}
