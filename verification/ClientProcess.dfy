// src/client.c in its own form: an object whose handlers update the connection
// and drive the ring buffer in place, each proved to do what the step function says.

module ClientProcess {
  import opened Wrappers
  import opened Wire
  import opened SenderWindow
  import opened ClientMachine

  // One turn of the state loop or of the transfer loop: the head, and the tail if it came to the wait.
  function ClientTurn(cfg: ClientConfig, c: Client, e: (ClientEnv, ClientEnv)): (Client, seq<Packet>)
  {
    var (c1, sent1) := ClientStep(cfg, c, e.0);
    if !c1.waiting then (c1, sent1)
    else var (c2, sent2) := ClientStep(cfg, c1, e.1); (c2, sent1 + sent2)
  }

  // A turn that waits, put together from its head and its tail.
  lemma TurnThatWaits(cfg: ClientConfig, c: Client, e: (ClientEnv, ClientEnv), c1: Client, sent1: seq<Packet>, c2: Client, sent2: seq<Packet>)
    requires ClientStep(cfg, c, e.0) == (Wait(c1, 0).(deadline := ClientStep(cfg, c, e.0).0.deadline), sent1)
    requires c1.phase != Done && !c1.waiting && c1.deadline == 0
    requires ClientTail(cfg, c1.(now := e.1.t), e.1) == (c2, sent2)
    ensures ClientTurn(cfg, c, e) == (c2, sent1 + sent2)
    ensures sent1 == [] ==> ClientTurn(cfg, c, e) == (c2, sent2)
  {
    hide ClientHead, ClientTail;
    var blocked := ClientStep(cfg, c, e.0).0;
    assert blocked.(now := e.1.t, waiting := false, deadline := 0) == c1.(now := e.1.t);
    assert [] + sent2 == sent2;
  }

  function ClientTurns(cfg: ClientConfig, c: Client, es: seq<(ClientEnv, ClientEnv)>): (Client, seq<Packet>)
    decreases |es|
  {
    if es == [] then (c, [])
    else
      var (c1, sent1) := ClientTurns(cfg, c, es[..|es| - 1]);
      var (c2, sent2) := ClientTurn(cfg, c1, es[|es| - 1]);
      (c2, sent1 + sent2)
  }

  lemma {:induction false} RunAppend(cfg: ClientConfig, c: Client, es: seq<ClientEnv>, more: seq<ClientEnv>)
    ensures ClientRun(cfg, c, es + more) == ClientRun(cfg, ClientRun(cfg, c, es), more)
    decreases |es|
  {
    hide ClientStep;
    if es == [] {
      assert es + more == more;
    } else {
      RunAppend(cfg, ClientStep(cfg, c, es[0]).0, es[1..], more);
      assert (es + more)[1..] == es[1..] + more;
    }
  }

  lemma TurnIsSteps(cfg: ClientConfig, c: Client, e: (ClientEnv, ClientEnv)) returns (steps: seq<ClientEnv>)
    ensures ClientRun(cfg, c, steps) == ClientTurn(cfg, c, e).0
  {
    hide ClientStep;
    var c1 := ClientStep(cfg, c, e.0).0;
    assert ClientRun(cfg, c, [e.0]) == c1 by { assert [e.0][1..] == []; }
    if c1.waiting {
      var c2 := ClientStep(cfg, c1, e.1).0;
      assert ClientRun(cfg, c1, [e.1]) == c2 by { assert [e.1][1..] == []; }
      steps := [e.0] + [e.1];
      RunAppend(cfg, c, [e.0], [e.1]);
    } else {
      steps := [e.0];
    }
  }

  // What the object does over its turns is a run of the step function, so what
  // holds of every run holds of the object.
  lemma {:induction false} TurnsAreSteps(cfg: ClientConfig, c: Client, es: seq<(ClientEnv, ClientEnv)>) returns (steps: seq<ClientEnv>)
    ensures ClientRun(cfg, c, steps) == ClientTurns(cfg, c, es).0
    decreases |es|
  {
    hide ClientTurn, ClientStep;
    if es == [] {
      steps := [];
    } else {
      var first := TurnsAreSteps(cfg, c, es[..|es| - 1]);
      var c1 := ClientTurns(cfg, c, es[..|es| - 1]).0;
      var last := TurnIsSteps(cfg, c1, es[|es| - 1]);
      RunAppend(cfg, c, first, last);
      steps := first + last;
    }
  }

  // After any number of fills, ACKs and retransmissions, slot s % 30 holds chunk
  // s under its own header for every s in the window, and no other slot is
  // marked as waiting for an acknowledgement.
  lemma RingHoldsChunks(cfg: ClientConfig, chunks: seq<Chunk>, start: nat, es: seq<(ClientEnv, ClientEnv)>, g: GBNSenderState)
    requires Fits(cfg.isn, chunks) && g.Valid()
    requires var c := ClientTurns(cfg, ClientStart(chunks, start), es).0; c.phase == Transfer && c.window == g.View()
    ensures var c := ClientTurns(cfg, ClientStart(chunks, start), es).0;
            && cfg.isn < g.base <= g.nextSeqNum <= cfg.isn + 1 + |chunks|
            && (forall s: nat :: g.base <= s < g.nextSeqNum ==>
                  g.buffer[SlotOf(s)] == Slot(DataPacket(s, c.ackNum, c.connId, chunks[s - cfg.isn - 1]), true))
            && (forall s: nat :: g.nextSeqNum <= s < g.base + WINDOW_SIZE ==> !g.buffer[SlotOf(s)].valid)
  {
    hide SlotOf, ClientTurns, ClientRun;
    var c := ClientTurns(cfg, ClientStart(chunks, start), es).0;
    var steps := TurnsAreSteps(cfg, ClientStart(chunks, start), es);
    ClientRunKeeps(cfg, chunks, ClientStart(chunks, start), steps);
    forall s: nat | g.base <= s < g.nextSeqNum
      ensures g.buffer[SlotOf(s)].packet == DataPacket(s, c.ackNum, c.connId, chunks[s - cfg.isn - 1])
    {
      assert g.View().pending[s - g.base] == g.buffer[SlotOf(g.base + (s - g.base))].packet;
    }
  }

  class ClientLoop {
    const cfg: ClientConfig
    var state: ClientPhase
    var seqNum: U32
    var ackNum: U32
    var connId: U16
    var addr: Host
    var gbn: GBNSenderState
    const file: InputStream
    var eofReached: bool
    var lastAck: U32
    var dupAckCount: nat
    var lastProgress: nat
    var exitCode: int
    var clock: nat

    ghost predicate Valid()
      reads this, gbn, gbn.buffer
    {
      gbn.Valid()
    }

    ghost function View(): Client
      requires Valid()
      reads this, gbn, gbn.buffer, file
    {
      Client(state, seqNum, ackNum, connId, addr, gbn.View(), file.chunks, eofReached, lastAck, dupAckCount,
             lastProgress, exitCode, clock, false, 0)
    }

    constructor (cfg: ClientConfig, chunks: seq<Chunk>, now: nat)
      ensures Valid() && fresh(gbn) && fresh(gbn.buffer) && fresh(file)
      ensures this.cfg == cfg && View() == ClientStart(chunks, now)
    {
      this.cfg := cfg;
      state, seqNum, ackNum, connId, addr := Closed, 0, 0, 0, Peer;
      gbn := new GBNSenderState(0);
      file := new InputStream(chunks, None);
      eofReached, lastAck, dupAckCount := false, 0, 0;
      lastProgress, exitCode, clock := now, EX_OK, now;
    }

    method MarkProgressNow()
      requires Valid()
      modifies this`lastProgress
      ensures Valid() && View() == old(View()).(lastProgress := MarkProgress(old(lastProgress), clock))
    {
      if clock != 0 {
        lastProgress := clock;
      }
    }

    method CheckWatchdog() returns (expired: bool)
      requires Valid() && state != Done
      modifies this`state, this`exitCode
      ensures expired == Expired(lastProgress, clock, cfg.timeout)
      ensures Valid() && View() == if expired then Quit(old(View()), EX_PROTOCOL) else old(View())
    {
      expired := Expired(lastProgress, clock, cfg.timeout);
      if expired {
        exitCode, state := EX_PROTOCOL, Done;
      }
    }

    method SendControl(flags: Byte, ok: bool) returns (sent: seq<Packet>)
      requires Valid()
      modifies this`state, this`exitCode
      ensures Valid() && (View(), sent) == Sending(old(View()), ok, Packet(seqNum, ackNum, connId, flags, []))
    {
      if ok {
        sent := [Packet(seqNum, ackNum, connId, flags, [])];
      } else {
        exitCode, state := EX_OSERR, Done;
        sent := [];
      }
    }

    // handle_closed
    method HandleClosed(e: ClientEnv) returns (sent: seq<Packet>)
      requires Valid() && state == Closed && !e.stop
      modifies this
      ensures Valid() && gbn == old(gbn) && (View(), sent) == ClientStep(cfg, old(View()), e)
    {
      hide GBNSenderState.Valid, GBNSenderState.View, Add32, Expired, MarkProgress, ClientTail, TransferHead;
      clock := e.t;
      seqNum, ackNum, connId := cfg.isn, 0, 0;
      state := SynSent;
      sent := SendControl(FLAG_SYN, e.sendOk);
    }

    // handle_syn_sent
    method HandleSynSent(before: ClientEnv, after: ClientEnv) returns (sent: seq<Packet>)
      requires Valid() && state == SynSent && !before.stop
      modifies this
      ensures Valid() && gbn == old(gbn) && (View(), sent) == ClientTurn(cfg, old(View()), (before, after))
    {
      hide GBNSenderState.Valid, GBNSenderState.View, ClientTail;
      clock := before.t;
      var expired := CheckWatchdog();
      if expired { return []; }
      ghost var blocked := View();
      clock := after.t;
      sent := AwaitSynAck(after);
      TurnThatWaits(cfg, old(View()), (before, after), blocked, [], View(), sent);
    }

    // handle_syn_sent after its wait.
    method AwaitSynAck(e: ClientEnv) returns (sent: seq<Packet>)
      requires Valid() && state == SynSent && clock == e.t
      modifies this
      ensures Valid() && gbn == old(gbn) && (View(), sent) == ClientTail(cfg, old(View()), e)
    {
      hide GBNSenderState.Valid, GBNSenderState.View, Add32, Expired, MarkProgress, ClientReceive;
      sent := [];
      match e.outcome
      case Timeout =>
        var expired := CheckWatchdog();
        if !expired { sent := SendControl(FLAG_SYN, e.sendOk); }
      case WaitError(_) => exitCode, state := EX_OSERR, Done;
      case RecvFailed =>
      case Malformed(src) => addr := src;
      case Recv(p, src) =>
        addr := src;
        sent := TakeSynAck(p, e);
    }

    method TakeSynAck(p: Packet, e: ClientEnv) returns (sent: seq<Packet>)
      requires Valid() && state == SynSent
      modifies this`connId, this`ackNum, this`seqNum, this`lastProgress, this`state, this`exitCode
      ensures Valid() && (View(), sent) == ClientReceive(old(View()), e, p)
    {
      hide GBNSenderState.Valid, GBNSenderState.View, Add32, Expired, MarkProgress;
      sent := [];
      if p.flags == FLAG_SYN_ACK && p.connId != 0 && p.ackNum == Add32(seqNum, 1) {
        connId, ackNum, seqNum := p.connId, Add32(p.seqNum, 1), Add32(seqNum, 1);
        MarkProgressNow();
        state := Established;
        sent := SendControl(FLAG_ACK, e.sendOk);
      }
    }

    // The entry of handle_established.
    method EnterEstablished(e: ClientEnv)
      requires Valid() && state == Established && !e.stop
      modifies this
      ensures Valid() && (gbn == old(gbn) || (fresh(gbn) && fresh(gbn.buffer)))
      ensures (View(), []) == ClientStep(cfg, old(View()), e)
    {
      hide GBNSenderState.Valid, GBNSenderState.View, Add32, Expired, MarkProgress, ClientTail, TransferHead;
      clock := e.t;
      var expired := CheckWatchdog();
      if expired { return; }
      NewWindow();
      eofReached, lastAck, dupAckCount := false, 0, 0;
      state := Transfer;
    }

    method NewWindow()
      requires Valid()
      modifies this`gbn
      ensures Valid() && fresh(gbn) && fresh(gbn.buffer)
      ensures View() == old(View()).(window := Window(seqNum, seqNum, [], 0))
    {
      hide GBNSenderState.Valid, GBNSenderState.View;
      gbn := new GBNSenderState(seqNum);
    }

    lemma RejectedAck(w: Window, ack: U32)
      ensures !ProcessAck(w, ack).1 ==> ProcessAck(w, ack).0 == w
    {
    }

    // The ACK branch of the transfer loop.
    method TakeAck(ack: U32) returns (sent: seq<Packet>)
      requires Valid() && state == Transfer
      modifies this, gbn, gbn.buffer
      ensures Valid() && gbn == old(gbn) && (View(), sent) == OnAck(old(View()), ack)
    {
      hide GBNSenderState.Valid, GBNSenderState.View, ProcessAck;
      sent := [];
      ghost var was := gbn.View();
      var ackedNew := gbn.Acknowledge(ack);
      RejectedAck(was, ack);
      ViewOfWindow();
      if ackedNew {
        dupAckCount, lastAck := 0, ack;
        MarkProgressNow();
        gbn.SetTimer(if gbn.base == gbn.nextSeqNum then 0 else clock);
      } else if ack == lastAck {
        dupAckCount := dupAckCount + 1;
        if dupAckCount == 3 {
          sent := gbn.Retransmit(clock);
          dupAckCount := 0;
          gbn.SetTimer(clock);
        }
      } else {
        lastAck, dupAckCount := ack, 1;
      }
    }

    // Fills the window unless end of input was seen; failed: a read failed.
    method FillWindow(e: ClientEnv) returns (sent: seq<Packet>, failed: bool)
      requires Valid() && state == Transfer
      modifies this`eofReached, gbn, gbn.buffer, file
      ensures Valid()
      ensures var r := Refill(old(View()), e);
              sent == r.sent && failed == (r.status == ReadFailed) && View() == Refilled(old(View()), r)
    {
      hide GBNSenderState.Valid, GBNSenderState.View;
      sent, failed := [], false;
      if !eofReached {
        file.fault := e.fault;
        var result;
        result, sent := gbn.FillAndSend(file, ackNum, connId, clock);
        failed := result < 0;
        if result > 0 {
          eofReached := true;
        }
      }
    }

    lemma ViewOfWindow()
      requires Valid()
      ensures gbn.View().base == gbn.base && gbn.View().next == gbn.nextSeqNum
    {
    }

    // The end of handle_established.
    method LeaveTransfer()
      requires Valid() && state == Transfer
      modifies this`seqNum, this`state
      ensures Valid() && View() == TransferDone(old(View()))
    {
      hide GBNSenderState.Valid;
      seqNum, state := gbn.nextSeqNum, FinWait;
    }

    // The transfer loop up to its wait; waits: it came that far.
    method SendAndCheckTimer(e: ClientEnv) returns (sent: seq<Packet>, waits: bool)
      requires Valid() && state == Transfer
      modifies this, gbn, gbn.buffer, file
      ensures Valid() && gbn == old(gbn)
      ensures var (c, out) := TransferHead(cfg, old(View()).(now := e.t), e);
              sent == out && waits == c.waiting && (waits ==> state == Transfer)
              && View() == if waits then c.(waiting := false, deadline := 0) else c
    {
      hide GBNSenderState.Valid, GBNSenderState.View, Refill, TimerCheck, Expired, TransferDone;
      clock := e.t;
      ViewOfWindow();
      if !(!eofReached || gbn.base < gbn.nextSeqNum) {
        LeaveTransfer();
        return [], false;
      }
      var expired := CheckWatchdog();
      if expired { return [], false; }
      var failed;
      sent, failed := FillWindow(e);
      waits := false;
      if failed {
        exitCode, state := EX_IOERR, Done;
        return;
      }
      ViewOfWindow();
      if eofReached && gbn.base == gbn.nextSeqNum {
        LeaveTransfer();
        return;
      }
      var more;
      more, waits := CheckTimer();
      sent := sent + more;
    }

    // Retransmits when the timer has run out; otherwise the loop goes on to wait.
    method CheckTimer() returns (sent: seq<Packet>, waits: bool)
      requires Valid() && state == Transfer
      modifies gbn
      ensures Valid()
      ensures var (c, out) := TimerCheck(old(View()));
              sent == out && waits == c.waiting && (waits ==> state == Transfer)
              && View() == if waits then c.(waiting := false, deadline := 0) else c
    {
      hide GBNSenderState.Valid;
      sent, waits := [], true;
      if gbn.base != gbn.nextSeqNum {
        if gbn.timer == 0 {
          gbn.SetTimer(clock);
        }
        if Elapsed(clock, gbn.timer) >= RETRANSMIT_INTERVAL_MS {
          sent := gbn.Retransmit(clock);
          waits := false;
        }
      }
    }

    // The transfer loop after its wait.
    method AwaitAck(e: ClientEnv) returns (sent: seq<Packet>)
      requires Valid() && state == Transfer && clock == e.t
      modifies this, gbn, gbn.buffer
      ensures Valid() && gbn == old(gbn) && (View(), sent) == ClientTail(cfg, old(View()), e)
    {
      hide GBNSenderState.Valid, GBNSenderState.View, OnAck;
      sent := [];
      match e.outcome
      case Timeout =>
      case WaitError(_) => exitCode, state := EX_OSERR, Done;
      case RecvFailed =>
      case Malformed(src) => addr := src;
      case Recv(p, src) =>
        addr := src;
        if p.flags == FLAG_ACK && p.connId == connId {
          sent := TakeAck(p.ackNum);
        }
    }

    // One turn of the transfer loop of handle_established.
    method TransferTurn(before: ClientEnv, after: ClientEnv) returns (sent: seq<Packet>)
      requires Valid() && state == Transfer
      modifies this, gbn, gbn.buffer, file
      ensures Valid() && gbn == old(gbn) && (View(), sent) == ClientTurn(cfg, old(View()), (before, after))
    {
      hide GBNSenderState.Valid, GBNSenderState.View, ClientTail, TransferHead;
      var waits;
      sent, waits := SendAndCheckTimer(before);
      if !waits { return; }
      ghost var blocked, sent1 := View(), sent;
      clock := after.t;
      var more := AwaitAck(after);
      TurnThatWaits(cfg, old(View()), (before, after), blocked, sent1, View(), more);
      sent := sent + more;
    }

    // handle_fin_wait
    method HandleFinWait(before: ClientEnv, after: ClientEnv) returns (sent: seq<Packet>)
      requires Valid() && state == FinWait && !before.stop
      modifies this
      ensures Valid() && gbn == old(gbn) && (View(), sent) == ClientTurn(cfg, old(View()), (before, after))
    {
      hide GBNSenderState.Valid, GBNSenderState.View, ClientTail;
      clock := before.t;
      var expired := CheckWatchdog();
      if expired { return []; }
      sent := SendControl(FLAG_FIN, before.sendOk);
      if state == Done { return; }
      ghost var blocked, sent1 := View(), sent;
      clock := after.t;
      var more := AwaitFinAck(after);
      TurnThatWaits(cfg, old(View()), (before, after), blocked, sent1, View(), more);
      sent := sent + more;
    }

    // handle_fin_wait after its wait.
    method AwaitFinAck(e: ClientEnv) returns (sent: seq<Packet>)
      requires Valid() && state == FinWait && clock == e.t
      modifies this
      ensures Valid() && gbn == old(gbn) && (View(), sent) == ClientTail(cfg, old(View()), e)
    {
      hide GBNSenderState.Valid, GBNSenderState.View, Add32, Expired, MarkProgress, ClientReceive;
      sent := [];
      match e.outcome
      case Timeout => var _ := CheckWatchdog();
      case WaitError(_) => exitCode, state := EX_OSERR, Done;
      case RecvFailed =>
      case Malformed(src) => addr := src;
      case Recv(p, src) =>
        addr := src;
        sent := TakeFinAck(p, e);
    }

    method TakeFinAck(p: Packet, e: ClientEnv) returns (sent: seq<Packet>)
      requires Valid() && state == FinWait
      modifies this`ackNum, this`seqNum, this`lastProgress, this`state, this`exitCode
      ensures Valid() && (View(), sent) == ClientReceive(old(View()), e, p)
    {
      hide GBNSenderState.Valid, GBNSenderState.View, Add32, Expired, MarkProgress;
      sent := [];
      if p.flags == FLAG_FIN_ACK && p.connId == connId && p.ackNum == Add32(seqNum, 1) {
        ackNum, seqNum := Add32(p.seqNum, 1), Add32(seqNum, 1);
        MarkProgressNow();
        state := TimeWait;
        sent := SendControl(FLAG_ACK, e.sendOk);
      }
    }

    // handle_time_wait
    method HandleTimeWait(before: ClientEnv, after: ClientEnv) returns (sent: seq<Packet>)
      requires Valid() && state == TimeWait && !before.stop
      modifies this
      ensures Valid() && gbn == old(gbn) && (View(), sent) == ClientTurn(cfg, old(View()), (before, after))
    {
      hide GBNSenderState.Valid, GBNSenderState.View;
      clock := before.t;
      ghost var blocked := View();
      clock := after.t;
      sent := AwaitClose(after);
      TurnThatWaits(cfg, old(View()), (before, after), blocked, [], View(), sent);
    }

    // handle_time_wait after its wait.
    method AwaitClose(e: ClientEnv) returns (sent: seq<Packet>)
      requires Valid() && state == TimeWait && clock == e.t
      modifies this
      ensures Valid() && gbn == old(gbn) && (View(), sent) == ClientTail(cfg, old(View()), e)
    {
      hide GBNSenderState.Valid, GBNSenderState.View, Add32, Expired, MarkProgress;
      sent := [];
      match e.outcome
      case Timeout => state := Done;
      case WaitError(stopped) => exitCode, state := if stopped then EX_OK else EX_OSERR, Done;
      case RecvFailed =>
      case Malformed(src) => addr := src;
      case Recv(p, src) =>
        addr := src;
        if p.flags == FLAG_FIN_ACK && p.connId == connId && p.ackNum == seqNum {
          sent := SendControl(FLAG_ACK, e.sendOk);
          if e.sendOk {
            MarkProgressNow();
          }
        }
    }

    // The end of run_client, and what it returns. fileClosed: fclose succeeded, or the input is stdin.
    method Close(fileClosed: bool, socketClosed: bool) returns (code: int)
      requires Valid() && state == Done
      ensures code == ClientExit(View(), fileClosed, socketClosed)
      ensures code == 0 <==> exitCode == 0 && fileClosed && socketClosed
    {
      code := exitCode;
      if !fileClosed {
        code := EX_IOERR;
      }
      if !socketClosed {
        code := EX_OSERR;
      }
    }

    // One turn of the state loop of run_client, the transfer loop included turn by turn.
    method Turn(before: ClientEnv, after: ClientEnv) returns (sent: seq<Packet>)
      requires Valid() && state != Done
      modifies this, gbn, gbn.buffer, file
      ensures Valid() && (gbn == old(gbn) || (fresh(gbn) && fresh(gbn.buffer)))
      ensures (View(), sent) == ClientTurn(cfg, old(View()), (before, after))
    {
      sent := [];
      if state != Transfer && before.stop {
        clock := before.t;
        exitCode, state := EX_SOFTWARE, Done;
        return;
      }
      match state
      case Closed => sent := HandleClosed(before);
      case SynSent => sent := HandleSynSent(before, after);
      case Established => EnterEstablished(before);
      case Transfer => sent := TransferTurn(before, after);
      case FinWait => sent := HandleFinWait(before, after);
      case TimeWait => sent := HandleTimeWait(before, after);
    }

    // run_client, for as long as es tells what happens: n turns of its loops.
    method RunClient(es: seq<(ClientEnv, ClientEnv)>) returns (sent: seq<Packet>, n: nat)
      requires Valid()
      modifies this, gbn, gbn.buffer, file
      ensures Valid() && n <= |es| && (n == |es| || state == Done)
      ensures (View(), sent) == ClientTurns(cfg, old(View()), es[..n])
    {
      hide ClientTurn;
      sent, n := [], 0;
      while state != Done && n < |es|
        invariant n <= |es| && Valid()
        invariant gbn == old(gbn) || (fresh(gbn) && fresh(gbn.buffer))
        invariant (View(), sent) == ClientTurns(cfg, old(View()), es[..n])
      {
        var out := Turn(es[n].0, es[n].1);
        assert es[..n + 1][..n] == es[..n];
        sent, n := sent + out, n + 1;
      }
    }
  }
}
