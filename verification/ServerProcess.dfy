// src/server.c in its own form: an object whose handlers update the connection
// in place, each proved to do what the step function says. A handler is given
// the surroundings before its wait and those after it.

module ServerProcess {
  import opened Wire
  import opened ClientMachine
  import opened ServerMachine

  // One turn of the state loop: the head, which sends nothing, and the tail if it came to the wait.
  function ServerTurn(cfg: ServerConfig, s: Server, e: (ServerEnv, ServerEnv)): (Server, seq<Packet>)
  {
    var s1 := ServerStep(cfg, s, e.0).0;
    if !s1.waiting then (s1, []) else ServerStep(cfg, s1, e.1)
  }

  function ServerTurns(cfg: ServerConfig, s: Server, es: seq<(ServerEnv, ServerEnv)>): (Server, seq<Packet>)
    decreases |es|
  {
    if es == [] then (s, [])
    else
      var (s1, sent1) := ServerTurns(cfg, s, es[..|es| - 1]);
      var (s2, sent2) := ServerTurn(cfg, s1, es[|es| - 1]);
      (s2, sent1 + sent2)
  }

  class ServerLoop {
    const cfg: ServerConfig
    var state: ServerPhase
    var seqNum: U32
    var ackNum: U32
    var connId: U16
    var addr: Host
    var file: seq<Byte>
    var lastProgress: nat
    var exitCode: int
    var clock: nat

    function View(): Server
      reads this
    {
      Server(state, seqNum, ackNum, connId, addr, file, lastProgress, exitCode, clock, false, 0)
    }

    constructor (cfg: ServerConfig, now: nat)
      ensures this.cfg == cfg && View() == ServerStart(now)
    {
      this.cfg := cfg;
      state, seqNum, ackNum, connId, addr, file := Listening, 0, 0, 0, Stranger, [];
      lastProgress, exitCode, clock := now, EX_OK, now;
    }

    method MarkProgressNow()
      modifies this`lastProgress
      ensures View() == Marked(old(View()))
    {
      if clock != 0 {
        lastProgress := clock;
      }
    }

    // The watchdog check at the head of every handler.
    method CheckWatchdog() returns (expired: bool)
      requires state != Finished
      modifies this`state, this`exitCode
      ensures expired == Expired(lastProgress, clock, cfg.timeout)
      ensures View() == if expired then Stop(old(View()), EX_PROTOCOL) else old(View())
    {
      expired := Expired(lastProgress, clock, cfg.timeout);
      if expired {
        exitCode, state := EX_PROTOCOL, Finished;
      }
    }

    // send_packet of a control packet; a failure ends the server with failCode.
    method SendControl(flags: Byte, ok: bool, failCode: int) returns (sent: seq<Packet>)
      modifies this`state, this`exitCode
      ensures (View(), sent) == Answering(old(View()), failCode, ok, Control(old(View()), flags))
    {
      if ok {
        sent := [Packet(seqNum, ackNum, connId, flags, [])];
      } else {
        exitCode, state := failCode, Finished;
        sent := [];
      }
    }

    // handle_listen
    method HandleListen(before: ServerEnv, after: ServerEnv) returns (sent: seq<Packet>)
      requires state == Listening && !before.stop
      modifies this
      ensures (View(), sent) == ServerTurn(cfg, old(View()), (before, after))
    {
      sent := [];
      clock := before.t;
      var expired := CheckWatchdog();
      if expired { return; }
      clock := after.t;
      match after.outcome
      case Timeout => expired := CheckWatchdog();
      case WaitError(_) => exitCode, state := EX_OSERR, Finished;
      case RecvFailed =>
      case Malformed(src) => addr := src;
      case Recv(p, src) =>
        addr := src;
        if p.flags == FLAG_SYN {
          connId, seqNum, ackNum := cfg.connId, cfg.isn, Add32(p.seqNum, 1);
          sent := SendControl(FLAG_SYN_ACK, after.sendOk, EX_OSERR);
          if after.sendOk {
            MarkProgressNow();
            state := Handshaking;
          }
        }
    }

    // handle_handshake
    method HandleHandshake(before: ServerEnv, after: ServerEnv) returns (sent: seq<Packet>)
      requires state == Handshaking && !before.stop
      modifies this
      ensures (View(), sent) == ServerTurn(cfg, old(View()), (before, after))
    {
      sent := [];
      clock := before.t;
      var expired := CheckWatchdog();
      if expired { return; }
      clock := after.t;
      match after.outcome
      case Timeout => expired := CheckWatchdog();
      case WaitError(_) => exitCode, state := EX_OSERR, Finished;
      case RecvFailed =>
      case Malformed(src) => addr := src;
      case Recv(p, src) =>
        addr := src;
        if p.flags == FLAG_SYN && Add32(p.seqNum, 1) == ackNum {
          sent := SendControl(FLAG_SYN_ACK, after.sendOk, EX_OSERR);
        } else if p.flags == FLAG_ACK && p.connId == connId && p.ackNum == Add32(seqNum, 1) && p.seqNum == ackNum {
          ackNum := p.seqNum;
          MarkProgressNow();
          state := Receiving;
        } else if p.flags == FLAG_DATA && p.connId == connId && p.seqNum == ackNum && p.ackNum == Add32(seqNum, 1) {
          MarkProgressNow();
          state := Receiving;
        }
    }

    // The DATA branch of handle_established.
    method TakeData(p: Packet, e: ServerEnv) returns (sent: seq<Packet>)
      requires state == Receiving
      modifies this
      ensures (View(), sent) == ReceiveData(old(View()), e, p)
    {
      if p.seqNum == ackNum {
        var written := if e.written < |p.payload| then e.written else |p.payload|;
        file := file + p.payload[..written];
        assert written == |p.payload| ==> p.payload[..written] == p.payload;
        if written != |p.payload| {
          exitCode, state := EX_IOERR, Finished;
          return [];
        }
        ackNum := Add32(ackNum, 1);
        MarkProgressNow();
      } else if p.seqNum > ackNum {
        MarkProgressNow();
      }
      sent := SendControl(FLAG_ACK, e.sendOk, EX_OSERR);
    }

    // handle_established
    method HandleEstablished(before: ServerEnv, after: ServerEnv) returns (sent: seq<Packet>)
      requires state == Receiving && !before.stop
      modifies this
      ensures (View(), sent) == ServerTurn(cfg, old(View()), (before, after))
    {
      sent := [];
      clock := before.t;
      var expired := CheckWatchdog();
      if expired { return; }
      clock := after.t;
      match after.outcome
      case Timeout => expired := CheckWatchdog();
      case WaitError(_) => exitCode, state := EX_OSERR, Finished;
      case RecvFailed =>
      case Malformed(src) => addr := src;
      case Recv(p, src) =>
        addr := src;
        if p.flags == FLAG_FIN && p.connId == connId && p.seqNum == ackNum {
          ackNum := Add32(p.seqNum, 1);
          sent := SendControl(FLAG_FIN_ACK, after.sendOk, EX_OSERR);
          if after.sendOk {
            MarkProgressNow();
            state := LastAck;
          }
        } else if p.flags == FLAG_DATA && p.connId == connId {
          sent := TakeData(p, after);
        }
    }

    // handle_last_ack
    method HandleLastAck(before: ServerEnv, after: ServerEnv) returns (sent: seq<Packet>)
      requires state == LastAck && !before.stop
      modifies this
      ensures (View(), sent) == ServerTurn(cfg, old(View()), (before, after))
    {
      sent := [];
      clock := before.t;
      var expired := CheckWatchdog();
      if expired { return; }
      clock := after.t;
      match after.outcome
      case Timeout =>
        if Expired(lastProgress, clock, cfg.timeout) {
          exitCode, state := EX_OK, Finished;
        } else {
          sent := SendControl(FLAG_FIN_ACK, after.sendOk, EX_OK);
        }
      case WaitError(stopped) => exitCode, state := if stopped then EX_OK else EX_OSERR, Finished;
      case RecvFailed =>
      case Malformed(src) => addr := src;
      case Recv(p, src) =>
        addr := src;
        if p.flags == FLAG_FIN && p.connId == connId && Add32(p.seqNum, 1) == ackNum {
          sent := SendControl(FLAG_FIN_ACK, after.sendOk, EX_OSERR);
        } else if p.flags == FLAG_ACK && p.connId == connId && p.ackNum == Add32(seqNum, 1) && p.seqNum == ackNum {
          MarkProgressNow();
          state := Finished;
        }
    }

    // The end of run_server, and what it returns. fileClosed: fclose succeeded, or the output is stdout.
    method Close(fileClosed: bool, socketClosed: bool) returns (code: int)
      requires state == Finished
      ensures code == ServerExit(View(), fileClosed, socketClosed)
      ensures code == 0 <==> exitCode == 0 && fileClosed && socketClosed
    {
      code := exitCode;
      if !fileClosed {
        code := EX_IOERR;
      }
      if !socketClosed {
        code := EX_OSERR;
      }
    }

    // One turn of the state loop of run_server.
    method Turn(before: ServerEnv, after: ServerEnv) returns (sent: seq<Packet>)
      requires state != Finished
      modifies this
      ensures (View(), sent) == ServerTurn(cfg, old(View()), (before, after))
    {
      sent := [];
      if before.stop {
        clock := before.t;
        exitCode, state := EX_SOFTWARE, Finished;
        return;
      }
      match state
      case Listening => sent := HandleListen(before, after);
      case Handshaking => sent := HandleHandshake(before, after);
      case Receiving => sent := HandleEstablished(before, after);
      case LastAck => sent := HandleLastAck(before, after);
    }

    // The state loop of run_server, for as long as es tells what happens: n turns of it.
    method RunServer(es: seq<(ServerEnv, ServerEnv)>) returns (sent: seq<Packet>, n: nat)
      modifies this
      ensures n <= |es| && (n == |es| || state == Finished)
      ensures (View(), sent) == ServerTurns(cfg, old(View()), es[..n])
    {
      hide ServerTurn;
      sent, n := [], 0;
      while state != Finished && n < |es|
        invariant n <= |es|
        invariant (View(), sent) == ServerTurns(cfg, old(View()), es[..n])
      {
        var out := Turn(es[n].0, es[n].1);
        assert es[..n + 1][..n] == es[..n];
        sent, n := sent + out, n + 1;
      }
    }
  }
}
