// The Go-Back-N sender window (src/window.c): first as a value, the packets
// awaiting acknowledgement in order, then the 30-slot ring that implements it.

module SenderWindow {
  import opened Wrappers
  import opened Wire

  // pending holds the packets base .. next - 1. The timer is 0 while it is not running.
  datatype Window = Window(base: U32, next: U32, pending: seq<Packet>, timer: nat)

  predicate Consistent(w: Window)
  {
    && w.base <= w.next <= w.base + WINDOW_SIZE
    && |w.pending| == w.next - w.base
    && forall i :: 0 <= i < |w.pending| ==> w.pending[i].seqNum == w.base + i
  }

  function DataPacket(seqNum: U32, ackNum: U32, connId: U16, chunk: Chunk): Packet
  {
    Packet(seqNum, ackNum, connId, FLAG_DATA, chunk)
  }

  datatype FillStatus = Filled | EndOfInput | ReadFailed

  datatype FillResult = FillResult(window: Window, file: seq<Chunk>, sent: seq<Packet>, status: FillStatus)

  // gbn_fill_and_send_window. file is what read_chunk will return, call by call,
  // before end of file; Some(k) in fault makes the call after k good ones fail.
  function Fill(w: Window, file: seq<Chunk>, ackNum: U32, connId: U16, now: nat, fault: Option<nat>): FillResult
    decreases |file|
  {
    if !(w.next < Add32(w.base, WINDOW_SIZE)) then FillResult(w, file, [], Filled)
    else if fault == Some(0) then FillResult(w, file, [], ReadFailed)
    else if file == [] then FillResult(w, file, [], EndOfInput)
    else
      var p := DataPacket(w.next, ackNum, connId, file[0]);
      var r := Fill(Pushed(w, p, now), file[1..], ackNum, connId, now, OneRead(fault));
      r.(sent := [p] + r.sent)
  }

  function Pushed(w: Window, p: Packet, now: nat): Window
  {
    Window(w.base, Add32(w.next, 1), w.pending + [p], if w.base == w.next then now else w.timer)
  }

  function OneRead(fault: Option<nat>): Option<nat>
  {
    if fault.Some? && fault.value > 0 then Some(fault.value - 1) else fault
  }

  // gbn_process_ack: the new window, and whether something new was acknowledged.
  function ProcessAck(w: Window, ackNum: U32): (Window, bool)
  {
    if ackNum <= w.base || ackNum > w.next then (w, false)
    else
      var k := ackNum - w.base;
      (w.(base := ackNum, pending := if k <= |w.pending| then w.pending[k..] else []), true)
  }

  // ps are data packets numbered from .. , the packet numbered first + k carrying chunks[k].
  predicate ChunkRun(ps: seq<Packet>, from: nat, first: nat, chunks: seq<Chunk>, ackNum: U32, connId: U16)
  {
    && first <= from && from - first + |ps| <= |chunks|
    && from + |ps| <= 0x1_0000_0000
    && forall i :: 0 <= i < |ps| ==> ps[i] == DataPacket(from + i, ackNum, connId, chunks[from - first + i])
  }

  // A fill appends the next chunks under consecutive numbers ...
  lemma {:induction false} FillSends(w: Window, file: seq<Chunk>, ackNum: U32, connId: U16, now: nat, fault: Option<nat>)
    requires Consistent(w)
    ensures var r := Fill(w, file, ackNum, connId, now, fault);
            && ChunkRun(r.sent, w.next, w.next, file, ackNum, connId)
            && r.file == file[|r.sent|..]
    decreases |file|
  {
    if w.next < Add32(w.base, WINDOW_SIZE) && fault != Some(0) && file != [] {
      var p := DataPacket(w.next, ackNum, connId, file[0]);
      var rest := Fill(Pushed(w, p, now), file[1..], ackNum, connId, now, OneRead(fault));
      FillSends(Pushed(w, p, now), file[1..], ackNum, connId, now, OneRead(fault));
      ChunksPrepend(p, rest.sent, w.next, file, ackNum, connId);
      assert file[1..][|rest.sent|..] == file[1 + |rest.sent|..];
    }
  }

  lemma PushKeepsConsistent(w: Window, p: Packet, now: nat)
    requires Consistent(w) && w.next < Add32(w.base, WINDOW_SIZE) && p.seqNum == w.next
    ensures w.next + 1 < 0x1_0000_0000 && Consistent(Pushed(w, p, now))
    ensures Pushed(w, p, now) == Window(w.base, w.next + 1, w.pending + [p], if w.base == w.next then now else w.timer)
  {
  }

  // ... behind those already pending ...
  lemma {:induction false} FillGrows(w: Window, file: seq<Chunk>, ackNum: U32, connId: U16, now: nat, fault: Option<nat>)
    requires Consistent(w)
    ensures var r := Fill(w, file, ackNum, connId, now, fault);
            && Consistent(r.window) && r.window.base == w.base && r.window.next == w.next + |r.sent|
            && r.window.pending == w.pending + r.sent
            && r.window.timer == (if w.base == w.next && r.sent != [] then now else w.timer)
    decreases |file|
  {
    hide Consistent, Pushed;
    if w.next < Add32(w.base, WINDOW_SIZE) && fault != Some(0) && file != [] {
      var p := DataPacket(w.next, ackNum, connId, file[0]);
      PushKeepsConsistent(w, p, now);
      FillGrows(Pushed(w, p, now), file[1..], ackNum, connId, now, OneRead(fault));
      var rest := Fill(Pushed(w, p, now), file[1..], ackNum, connId, now, OneRead(fault));
      assert w.pending + ([p] + rest.sent) == w.pending + [p] + rest.sent;
    } else {
      assert w.pending + [] == w.pending;
    }
  }

  // ... and stops only at end of input, at a failed read or with exactly 30 pending.
  lemma {:induction false} FillStops(w: Window, file: seq<Chunk>, ackNum: U32, connId: U16, now: nat, fault: Option<nat>)
    requires Consistent(w)
    ensures var r := Fill(w, file, ackNum, connId, now, fault);
            && (r.status == EndOfInput ==> r.file == [])
            && (w.base + WINDOW_SIZE < 0x1_0000_0000 && r.status == Filled ==> r.window.next == w.base + WINDOW_SIZE)
            && (fault == None ==> r.status != ReadFailed)
    decreases |file|
  {
    hide Consistent, Pushed;
    FillGuard(w, file, ackNum, connId, now, fault);
    if w.next < Add32(w.base, WINDOW_SIZE) && fault != Some(0) && file != [] {
      var p := DataPacket(w.next, ackNum, connId, file[0]);
      PushKeepsConsistent(w, p, now);
      FillStops(Pushed(w, p, now), file[1..], ackNum, connId, now, OneRead(fault));
    }
  }

  // Why a fill ends, exactly: the window is full; a read fails, the fault being
  // due at just this read; or the input is used up. None comes later than it could.
  lemma {:induction false} FillEnds(w: Window, file: seq<Chunk>, ackNum: U32, connId: U16, now: nat, fault: Option<nat>)
    requires Consistent(w)
    ensures var r := Fill(w, file, ackNum, connId, now, fault);
            var room := r.window.next < Add32(w.base, WINDOW_SIZE);
            && (r.status == Filled <==> !room)
            && (r.status == ReadFailed <==> room && fault == Some(|r.sent|))
            && (r.status == EndOfInput <==> room && fault != Some(|r.sent|) && r.file == [])
            && (fault.Some? ==> |r.sent| <= fault.value)
    decreases |file|
  {
    hide Consistent, Pushed;
    if w.next < Add32(w.base, WINDOW_SIZE) && fault != Some(0) && file != [] {
      var p := DataPacket(w.next, ackNum, connId, file[0]);
      PushKeepsConsistent(w, p, now);
      FillEnds(Pushed(w, p, now), file[1..], ackNum, connId, now, OneRead(fault));
    }
  }

  lemma FillFacts(w: Window, file: seq<Chunk>, ackNum: U32, connId: U16, now: nat, fault: Option<nat>)
    requires Consistent(w)
    ensures var r := Fill(w, file, ackNum, connId, now, fault);
            && Consistent(r.window) && r.window.base == w.base && r.window.next == w.next + |r.sent|
            && r.window.pending == w.pending + r.sent
            && r.window.timer == (if w.base == w.next && r.sent != [] then now else w.timer)
            && (r.status == EndOfInput ==> r.file == [])
            && (w.base + WINDOW_SIZE < 0x1_0000_0000 && r.status == Filled ==> r.window.next == w.base + WINDOW_SIZE)
            && (fault == None ==> r.status != ReadFailed)
  {
    hide Consistent, Fill;
    FillGrows(w, file, ackNum, connId, now, fault);
    FillStops(w, file, ackNum, connId, now, fault);
  }

  lemma ChunksPrepend(p: Packet, sent: seq<Packet>, first: U32, file: seq<Chunk>, ackNum: U32, connId: U16)
    requires file != [] && p == DataPacket(first, ackNum, connId, file[0])
    requires ChunkRun(sent, first + 1, first + 1, file[1..], ackNum, connId)
    ensures ChunkRun([p] + sent, first, first, file, ackNum, connId)
  {
    forall i | 0 <= i < 1 + |sent| ensures ([p] + sent)[i] == DataPacket(first + i, ackNum, connId, file[i]) {
      if i > 0 { assert file[1..][i - 1] == file[i]; }
    }
  }

  // The guard of the fill loop is its unbounded reading exactly while base + 30
  // stays below 2^32. From there on the 32-bit guard is false for every
  // consistent window: nothing more is read and end of input is never seen.
  lemma FillGuard(w: Window, file: seq<Chunk>, ackNum: U32, connId: U16, now: nat, fault: Option<nat>)
    requires Consistent(w)
    ensures w.base <= w.next <= w.base + WINDOW_SIZE
    ensures w.next < Add32(w.base, WINDOW_SIZE) <==>
            w.next < w.base + WINDOW_SIZE && w.base + WINDOW_SIZE < 0x1_0000_0000
    ensures w.base + WINDOW_SIZE >= 0x1_0000_0000 ==>
              Fill(w, file, ackNum, connId, now, fault) == FillResult(w, file, [], Filled)
  {
  }

  // The progress flag is raised exactly when base moves, and then base is the
  // acknowledged number; the packets kept are those not acknowledged.
  lemma ProcessAckFacts(w: Window, ackNum: U32)
    requires Consistent(w)
    ensures var (w', moved) := ProcessAck(w, ackNum);
            && Consistent(w') && w'.next == w.next && w'.timer == w.timer
            && (moved <==> w'.base != w.base) && (moved <==> w.base < ackNum <= w.next)
            && (moved ==> w'.base == ackNum)
            && w.base <= w'.base && w'.pending == w.pending[w'.base - w.base..]
  {
  }

  // ---- the ring ----

  // valid: waiting for an acknowledgement.
  datatype Slot = Slot(packet: Packet, valid: bool)

  // The ring slot of sequence number s.
  function SlotOf(s: nat): (i: nat)
    ensures i < WINDOW_SIZE
  {
    s % WINDOW_SIZE
  }

  lemma RingSlotsDiffer(s: nat, t: nat)
    requires s < t < s + WINDOW_SIZE
    ensures SlotOf(s) != SlotOf(t)
  {
  }

  lemma RingWraps(s: nat)
    ensures SlotOf(s + WINDOW_SIZE) == SlotOf(s)
  {
  }

  // The input stream behind read_chunk.
  class InputStream {
    var chunks: seq<Chunk>
    var fault: Option<nat>

    constructor (chunks: seq<Chunk>, fault: Option<nat>)
      ensures this.chunks == chunks && this.fault == fault
    {
      this.chunks, this.fault := chunks, fault;
    }

    // read_chunk: the bytes read, 0 at end of file, negative on an I/O error.
    method ReadChunk() returns (n: int, chunk: seq<Byte>)
      modifies this
      ensures old(fault) == Some(0) ==> n == -EX_IOERR && chunks == old(chunks) && fault == old(fault)
      ensures old(fault) != Some(0) && old(chunks) == [] ==> n == 0 && chunks == [] && fault == old(fault)
      ensures old(fault) != Some(0) && old(chunks) != [] ==>
                && chunk == old(chunks)[0] && n == |chunk| > 0
                && chunks == old(chunks)[1..] && fault == OneRead(old(fault))
    {
      chunk := [];
      if fault == Some(0) {
        n := -EX_IOERR;
      } else if chunks == [] {
        n := 0;
      } else {
        chunk := chunks[0];
        n := |chunk|;
        chunks, fault := chunks[1..], OneRead(fault);
      }
    }
  }

  class GBNSenderState {
    var base: U32
    var nextSeqNum: U32
    var timer: nat
    const buffer: array<Slot>

    // Exactly the slots of base .. nextSeqNum - 1 are valid, each holding its own packet.
    ghost predicate Valid()
      reads this, buffer
    {
      && buffer.Length == WINDOW_SIZE
      && base <= nextSeqNum <= base + WINDOW_SIZE
      && (forall s: nat :: base <= s < nextSeqNum ==>
            buffer[SlotOf(s)].valid && buffer[SlotOf(s)].packet.seqNum == s)
      && (forall s: nat :: nextSeqNum <= s < base + WINDOW_SIZE ==> !buffer[SlotOf(s)].valid)
    }

    ghost function PendingFrom(s: nat): (pending: seq<Packet>)
      requires buffer.Length == WINDOW_SIZE && s <= nextSeqNum
      reads this, buffer
      ensures |pending| == nextSeqNum - s
      ensures forall i :: 0 <= i < |pending| ==> pending[i] == buffer[SlotOf(s + i)].packet
      decreases nextSeqNum - s
    {
      if s == nextSeqNum then [] else [buffer[SlotOf(s)].packet] + PendingFrom(s + 1)
    }

    ghost function View(): (w: Window)
      requires Valid()
      reads this, buffer
      ensures Consistent(w)
    {
      var w := Window(base, nextSeqNum, PendingFrom(base), timer);
      assert forall i :: 0 <= i < |w.pending| ==> w.pending[i].seqNum == buffer[SlotOf(base + i)].packet.seqNum;
      w
    }

    constructor (start: U32)
      ensures Valid() && fresh(buffer) && View() == Window(start, start, [], 0)
    {
      base, nextSeqNum, timer := start, start, 0;
      buffer := new Slot[WINDOW_SIZE](_ => Slot(Packet(0, 0, 0, 0, []), false));
    }

    method SetTimer(now: nat)
      requires Valid()
      modifies this`timer
      ensures Valid() && View() == old(View()).(timer := now)
    {
      timer := now;
    }

    // Writes slot nextSeqNum, which holds nothing that is still waiting for an acknowledgement.
    method Store(p: Packet)
      requires Valid() && nextSeqNum < base + WINDOW_SIZE
      modifies buffer
      ensures buffer[SlotOf(nextSeqNum)] == Slot(p, true)
      ensures forall s: nat :: base <= s < base + WINDOW_SIZE && s != nextSeqNum ==> buffer[SlotOf(s)] == old(buffer[SlotOf(s)])
    {
      hide SlotOf, Consistent;
      forall s: nat | base <= s < base + WINDOW_SIZE && s != nextSeqNum
        ensures SlotOf(s) != SlotOf(nextSeqNum)
      {
        if s < nextSeqNum { RingSlotsDiffer(s, nextSeqNum); } else { RingSlotsDiffer(nextSeqNum, s); }
      }
      buffer[SlotOf(nextSeqNum)] := Slot(p, true);
    }

    // Stores p in slot nextSeqNum and counts it in.
    method Append(p: Packet)
      requires Valid() && nextSeqNum < base + WINDOW_SIZE && nextSeqNum + 1 < 0x1_0000_0000 && p.seqNum == nextSeqNum
      modifies this`nextSeqNum, buffer
      ensures Valid() && nextSeqNum == old(nextSeqNum) + 1
      ensures PendingFrom(base) == old(PendingFrom(base)) + [p]
    {
      hide SlotOf, Consistent;
      ghost var was := PendingFrom(base);
      Store(p);
      nextSeqNum := nextSeqNum + 1;
      assert PendingFrom(base) == was + [p];
    }

    // One round of the fill loop after a successful read.
    method Push(p: Packet, now: nat)
      requires Valid() && nextSeqNum < base + WINDOW_SIZE && nextSeqNum + 1 < 0x1_0000_0000 && p.seqNum == nextSeqNum
      modifies this, buffer
      ensures Valid() && View() == Pushed(old(View()), p, now)
    {
      hide SlotOf, Consistent, PendingFrom;
      if base == nextSeqNum {
        timer := now;
      }
      Append(p);
    }

    // gbn_fill_and_send_window: 1 at end of input, 0 when full, negative on a failed read.
    // sent lists the send_packet calls; a failing one is ignored here, as the loss of the packet.
    method FillAndSend(file: InputStream, ackNum: U32, connId: U16, now: nat) returns (result: int, sent: seq<Packet>)
      requires Valid()
      modifies this, buffer, file
      ensures Valid()
      ensures var r := old(Fill(View(), file.chunks, ackNum, connId, now, file.fault));
              && View() == r.window && file.chunks == r.file && sent == r.sent
              && result == match r.status { case Filled => 0 case EndOfInput => 1 case ReadFailed => -EX_IOERR }
    {
      hide SlotOf, Consistent;
      sent := [];
      ghost var goal := Fill(View(), file.chunks, ackNum, connId, now, file.fault);
      while nextSeqNum < Add32(base, WINDOW_SIZE)
        invariant Valid() && base == old(base)
        invariant var r := Fill(View(), file.chunks, ackNum, connId, now, file.fault);
                  goal == r.(sent := sent + r.sent)
        decreases |file.chunks|
      {
        var n, chunk := file.ReadChunk();
        if n == 0 {
          return 1, sent;
        }
        if n < 0 {
          return -EX_IOERR, sent;
        }
        var p := DataPacket(nextSeqNum, ackNum, connId, chunk);
        Push(p, now);
        ghost var rest := Fill(View(), file.chunks, ackNum, connId, now, file.fault);
        assert sent + ([p] + rest.sent) == sent + [p] + rest.sent;
        sent := sent + [p];
      }
      result := 0;
    }

    // The loop of gbn_process_ack: marks the slots of base .. ackNum - 1 as acknowledged.
    method Release(ackNum: U32) returns (ackedNew: bool)
      requires Valid() && base < ackNum <= nextSeqNum
      modifies buffer
      ensures ackedNew
      ensures forall i :: 0 <= i < WINDOW_SIZE ==> buffer[i].packet == old(buffer[i].packet)
      ensures forall t: nat :: ackNum <= t < nextSeqNum ==> buffer[SlotOf(t)].valid
      ensures forall t: nat :: nextSeqNum <= t < base + WINDOW_SIZE ==> !buffer[SlotOf(t)].valid
      ensures forall t: nat :: base <= t < ackNum ==> !buffer[SlotOf(t)].valid
    {
      hide SlotOf;
      ackedNew := false;
      var s: nat := base;
      while s < ackNum
        invariant base <= s <= ackNum <= nextSeqNum <= base + WINDOW_SIZE
        invariant forall i :: 0 <= i < WINDOW_SIZE ==> buffer[i].packet == old(buffer[i].packet)
        invariant forall t: nat :: s <= t < nextSeqNum ==> buffer[SlotOf(t)].valid
        invariant forall t: nat :: nextSeqNum <= t < base + WINDOW_SIZE ==> !buffer[SlotOf(t)].valid
        invariant forall t: nat :: base <= t < s ==> !buffer[SlotOf(t)].valid
        invariant ackedNew <==> s > base
      {
        var index := SlotOf(s);
        forall t: nat | base <= t < base + WINDOW_SIZE && t != s ensures SlotOf(t) != index {
          if t < s { RingSlotsDiffer(t, s); } else { RingSlotsDiffer(s, t); }
        }
        if buffer[index].valid {
          buffer[index] := buffer[index].(valid := false);
          ackedNew := true;
        }
        s := s + 1;
      }
    }

    // gbn_process_ack.
    method Acknowledge(ackNum: U32) returns (ackedNew: bool)
      requires Valid()
      modifies this, buffer
      ensures Valid() && (View(), ackedNew) == ProcessAck(old(View()), ackNum)
    {
      hide SlotOf;
      if ackNum <= base || ackNum > nextSeqNum {
        return false;
      }
      ghost var was := PendingFrom(base);
      ackedNew := Release(ackNum);
      forall t: nat | nextSeqNum <= t < ackNum + WINDOW_SIZE ensures !buffer[SlotOf(t)].valid {
        if t >= base + WINDOW_SIZE { RingWraps(t - WINDOW_SIZE); }
      }
      base := ackNum;
      assert PendingFrom(base) == was[ackNum - old(base)..];
    }

    // gbn_retransmit_window: resends exactly the pending packets, in order.
    method Retransmit(now: nat) returns (sent: seq<Packet>)
      requires Valid()
      modifies this
      ensures Valid() && sent == old(View()).pending
      ensures View() == if base == nextSeqNum then old(View()) else old(View()).(timer := now)
    {
      hide SlotOf;
      sent := [];
      if base == nextSeqNum {
        return;
      }
      ghost var pending := PendingFrom(base);
      var s: nat := base;
      while s < nextSeqNum
        invariant base <= s <= nextSeqNum
        invariant sent == pending[..s - base]
      {
        assert pending[s - base] == buffer[SlotOf(s)].packet;
        if buffer[SlotOf(s)].valid {
          sent := sent + [buffer[SlotOf(s)].packet];
        }
        s := s + 1;
      }
      timer := now;
    }
  }
}
