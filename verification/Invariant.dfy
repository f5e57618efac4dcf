// The inductive invariant of the whole system, and its preservation by every step.

module Invariant {
  import opened Wrappers
  import opened Wire
  import opened SenderWindow
  import opened ClientMachine
  import opened ServerMachine
  import opened Network

  // The client has taken the server's SYN+ACK.
  ghost predicate Linked(ss: Session, c: Client)
  {
    c.connId == ss.connId && c.ackNum == ss.serverIsn + 1
  }

  predicate PastTransfer(c: Client)
  {
    c.phase in {FinWait, TimeWait, Done}
  }

  predicate Closing(c: Client)
  {
    c.phase in {TimeWait, Done}
  }

  // Every packet ever sent to the server, and what its existence says of both machines.
  ghost predicate UpOk(ss: Session, c: Client, s: Server, p: Packet)
  {
    || IsSyn(ss, p)
    || (Linked(ss, c) && IsClientAck(ss, p, First(ss)))
    || (Linked(ss, c) && IsData(ss, p) && c.phase != Established && (c.phase == Transfer ==> p.seqNum < c.window.next))
    || (Linked(ss, c) && IsFin(ss, p) && PastTransfer(c) && s.ackNum >= End(ss))
    || (Linked(ss, c) && IsClientAck(ss, p, End(ss) + 1) && Closing(c) && s.ackNum == End(ss) + 1)
  }

  // Every packet ever sent to the client; acknowledgements never exceed the server's count.
  ghost predicate DownOk(ss: Session, s: Server, p: Packet)
  {
    && s.phase != Listening && s.ackNum >= First(ss)
    && (|| FromServer(ss, p, FLAG_SYN_ACK, First(ss))
        || (FromServer(ss, p, FLAG_ACK, p.ackNum) && First(ss) <= p.ackNum <= s.ackNum && p.ackNum <= End(ss))
        || (FromServer(ss, p, FLAG_FIN_ACK, End(ss) + 1) && s.ackNum == End(ss) + 1))
  }

  ghost predicate Numbered(ss: Session, s: Server)
  {
    s.seqNum == ss.serverIsn && s.connId == ss.connId
  }

  ghost predicate ServerInv(ss: Session, s: Server)
  {
    && (s.phase != Finished ==> s.exit == EX_OK)
    && match s.phase
       case Listening => s.out == [] && s.ackNum == 0
       case Handshaking => Numbered(ss, s) && s.ackNum == First(ss) && s.out == []
       case Receiving =>
         && Numbered(ss, s) && First(ss) <= s.ackNum <= End(ss)
         && s.out == Flatten(ss.chunks[..s.ackNum - First(ss)])
       case LastAck => Numbered(ss, s) && s.ackNum == End(ss) + 1 && s.out == Input(ss)
       case Finished =>
         && s.out <= Input(ss) && s.ackNum <= End(ss) + 1 && !s.waiting
         && (s.ackNum >= First(ss) ==> Numbered(ss, s))
         && (s.ackNum == End(ss) + 1 ==> s.out == Input(ss))
         && (s.exit == EX_OK ==> s.ackNum == End(ss) + 1)
  }

  // What ties the two machines together.
  ghost predicate Cross(ss: Session, c: Client, s: Server)
  {
    && (c.phase in {Established, Transfer, FinWait, TimeWait} ==> Linked(ss, c))
    && (c.connId == ss.connId ==> Linked(ss, c) && s.phase != Listening && s.ackNum >= First(ss))
    && (c.connId != ss.connId ==> s.ackNum <= First(ss))
    && (c.phase == Established ==> s.ackNum == First(ss))
    && (c.phase == Transfer ==> c.window.base <= s.ackNum <= c.window.next)
    && (c.phase == FinWait ==> s.ackNum >= End(ss))
    && (c.phase == TimeWait || (c.phase == Done && c.exit == EX_OK) ==> s.ackNum == End(ss) + 1)
    && (s.phase in {Receiving, LastAck} || s.ackNum == End(ss) + 1 ==> c.connId == ss.connId)
  }

  ghost predicate Inv(ss: Session, st: System)
    requires ValidSession(ss)
  {
    && ClientInv(ss.isn, ss.chunks, st.c)
    && ServerInv(ss, st.s)
    && Cross(ss, st.c, st.s)
    && (forall p :: p in st.toServer ==> UpOk(ss, st.c, st.s, p))
    && (forall p :: p in st.toClient ==> DownOk(ss, st.s, p))
  }

  // ---- client steps ----

  // c' is the client some steps after c.
  ghost predicate ClientOnward(ss: Session, c: Client, c': Client)
  {
    && (Linked(ss, c) ==> Linked(ss, c') && c'.phase != Established)
    && (PastTransfer(c) ==> PastTransfer(c'))
    && (Closing(c) ==> Closing(c'))
    && (c'.phase == Transfer ==> c.phase == Established || (c.phase == Transfer && c.window.next <= c'.window.next))
  }

  lemma UpOkAfterClient(ss: Session, c: Client, c': Client, s: Server, p: Packet)
    requires UpOk(ss, c, s, p) && ClientOnward(ss, c, c')
    ensures UpOk(ss, c', s, p)
  {
  }

  // What one client step does, given what it may receive.
  ghost predicate ClientMoves(ss: Session, c: Client, s: Server, c': Client, sent: seq<Packet>)
  {
    && ClientOnward(ss, c, c')
    && Cross(ss, c', s)
    && forall p :: p in sent ==> UpOk(ss, c', s, p)
  }

  lemma ClientHeadMoves(ss: Session, c: Client, s: Server, e: ClientEnv)
    requires ValidSession(ss) && ClientInv(ss.isn, ss.chunks, c) && ServerInv(ss, s) && Cross(ss, c, s)
    requires !c.waiting && c.phase != Transfer && c.phase != Done
    ensures var (c', sent) := ClientHead(ClientConf(ss), c, e); ClientMoves(ss, c, s, c', sent)
  {
    hide ChunkRun, TransferHead, Flatten;
  }

  lemma ChunkRunIsData(ss: Session, ps: seq<Packet>, from: nat, p: Packet)
    requires ValidSession(ss) && p in ps
    requires ChunkRun(ps, from, First(ss), ss.chunks, ss.serverIsn + 1, ss.connId)
    ensures IsData(ss, p) && from <= p.seqNum < from + |ps|
  {
  }

  lemma TransferHeadData(ss: Session, c: Client, e: ClientEnv, p: Packet)
    requires ValidSession(ss) && ClientInv(ss.isn, ss.chunks, c) && Linked(ss, c) && !c.waiting && c.phase == Transfer
    requires p in TransferHead(ClientConf(ss), c, e).1
    ensures IsData(ss, p) && p.seqNum < TransferHead(ClientConf(ss), c, e).0.window.next
  {
    hide TransferHead, ChunkRun, IsData;
    var (c', sent) := TransferHead(ClientConf(ss), c, e);
    TransferHeadKeeps(ClientConf(ss), ss.isn, ss.chunks, c, e);
    TransferHeadSends(ClientConf(ss), ss.isn, ss.chunks, c, e);
    hide ClientInv;
    var n := c'.window.next - c.window.next;
    assert sent == sent[..n] + sent[n..];
    if p in sent[..n] {
      ChunkRunIsData(ss, sent[..n], c.window.next, p);
    } else {
      ChunkRunIsData(ss, c'.window.pending, c'.window.base, p);
    }
  }

  lemma TransferHeadMoves(ss: Session, c: Client, s: Server, e: ClientEnv)
    requires ValidSession(ss) && ClientInv(ss.isn, ss.chunks, c) && ServerInv(ss, s) && Cross(ss, c, s)
    requires !c.waiting && c.phase == Transfer
    ensures var (c', sent) := TransferHead(ClientConf(ss), c, e); ClientMoves(ss, c, s, c', sent)
  {
    hide TransferHead, ClientInv, IsData, ServerInv;
    var (c', sent) := TransferHead(ClientConf(ss), c, e);
    TransferHeadKeeps(ClientConf(ss), ss.isn, ss.chunks, c, e);
    TransferHeadPhases(ClientConf(ss), c, e);
    forall p | p in sent ensures UpOk(ss, c', s, p) {
      TransferHeadData(ss, c, e, p);
    }
  }

  // A packet the client may be handed: sent by the server, or foreign.
  ghost predicate ForClient(ss: Session, s: Server, p: Packet)
  {
    DownOk(ss, s, p) || Foreign(ss, p)
  }

  lemma TransferReceiveMoves(ss: Session, c: Client, s: Server, e: ClientEnv, p: Packet)
    requires ValidSession(ss) && ClientInv(ss.isn, ss.chunks, c) && ServerInv(ss, s) && Cross(ss, c, s)
    requires !c.waiting && c.phase == Transfer && ForClient(ss, s, p)
    ensures var (c', sent) := ClientReceive(c, e, p); ClientMoves(ss, c, s, c', sent)
  {
    hide OnAck, ChunkRun;
    if p.flags == FLAG_ACK && p.connId == c.connId {
      OnAckMoves(c, p.ackNum);
      var (c', sent) := OnAck(c, p.ackNum);
      forall q | q in sent ensures UpOk(ss, c', s, q) {
        ChunkRunIsData(ss, c.window.pending, c.window.base, q);
      }
    }
  }

  lemma ReceiveMoves(ss: Session, c: Client, s: Server, e: ClientEnv, p: Packet)
    requires ValidSession(ss) && ClientInv(ss.isn, ss.chunks, c) && ServerInv(ss, s) && Cross(ss, c, s)
    requires !c.waiting && c.phase in {SynSent, FinWait, TimeWait} && ForClient(ss, s, p)
    ensures var (c', sent) := ClientReceive(c, e, p); ClientMoves(ss, c, s, c', sent)
  {
    hide OnAck, ChunkRun;
  }

  lemma ClientTailMoves(ss: Session, c: Client, s: Server, e: ClientEnv)
    requires ValidSession(ss) && ClientInv(ss.isn, ss.chunks, c) && ServerInv(ss, s) && Cross(ss, c, s)
    requires !c.waiting && c.phase in {SynSent, Transfer, FinWait, TimeWait} && (e.outcome.Recv? ==> ForClient(ss, s, e.outcome.p))
    ensures var (c', sent) := ClientTail(ClientConf(ss), c, e); ClientMoves(ss, c, s, c', sent)
  {
    hide ChunkRun, ClientReceive;
    if e.outcome.Recv? {
      if c.phase == Transfer {
        TransferReceiveMoves(ss, c.(addr := e.outcome.src), s, e, e.outcome.p);
      } else {
        ReceiveMoves(ss, c.(addr := e.outcome.src), s, e, e.outcome.p);
      }
    }
  }

  // ---- server steps ----

  ghost predicate ServerOnward(ss: Session, s: Server, s': Server)
  {
    && (s.phase != Listening ==> s'.phase != Listening)
    && s.ackNum <= s'.ackNum
    && (s.ackNum == End(ss) + 1 ==> s'.ackNum == End(ss) + 1)
  }

  lemma UpOkAfterServer(ss: Session, c: Client, s: Server, s': Server, p: Packet)
    requires UpOk(ss, c, s, p) && ServerOnward(ss, s, s')
    ensures UpOk(ss, c, s', p)
  {
  }

  lemma DownOkAfterServer(ss: Session, s: Server, s': Server, p: Packet)
    requires DownOk(ss, s, p) && ServerOnward(ss, s, s')
    ensures DownOk(ss, s', p)
  {
  }

  ghost predicate ServerMoves(ss: Session, c: Client, s: Server, s': Server, sent: seq<Packet>)
  {
    && ServerOnward(ss, s, s') && ServerInv(ss, s') && Cross(ss, c, s')
    && forall p :: p in sent ==> DownOk(ss, s', p)
  }

  lemma {:induction false} FlattenPrefix(chunks: seq<Chunk>, k: nat)
    requires k <= |chunks|
    ensures Flatten(chunks[..k]) <= Flatten(chunks)
    ensures k < |chunks| ==> Flatten(chunks[..k + 1]) == Flatten(chunks[..k]) + chunks[k]
  {
    if k < |chunks| {
      assert chunks[..k + 1][..k] == chunks[..k];
      if k + 1 < |chunks| {
        FlattenPrefix(chunks[..|chunks| - 1], k);
        assert chunks[..|chunks| - 1][..k] == chunks[..k];
      } else {
        assert chunks[..k + 1] == chunks;
      }
    } else {
      assert chunks[..k] == chunks;
    }
  }

  lemma PrefixTransitive(a: seq<Byte>, b: seq<Byte>, c: seq<Byte>)
    requires a <= b && b <= c
    ensures a <= c
  {
  }

  // What the output may be when the server gives up, whatever part of a chunk was written.
  lemma WrittenSoFar(ss: Session, s: Server, written: nat)
    requires ValidSession(ss) && ServerInv(ss, s) && s.phase == Receiving
    ensures s.out <= Input(ss)
    ensures s.ackNum == End(ss) ==> s.out == Input(ss)
    ensures s.ackNum < End(ss) ==>
              var chunk := ss.chunks[s.ackNum - First(ss)];
              && s.out + chunk == Flatten(ss.chunks[..s.ackNum + 1 - First(ss)]) && s.out + chunk <= Input(ss)
              && (written < |chunk| ==> s.out + chunk[..written] <= Input(ss))
  {
    var k := s.ackNum - First(ss);
    FlattenPrefix(ss.chunks, k);
    if k == |ss.chunks| {
      assert ss.chunks[..k] == ss.chunks;
    } else {
      FlattenPrefix(ss.chunks, k + 1);
      var chunk := ss.chunks[k];
      if written < |chunk| {
        PrefixTransitive(s.out + chunk[..written], s.out + chunk, Input(ss));
      }
    }
  }

  // In every phase the output is a prefix of the input, and all of it once every number is taken.
  lemma OutSoFar(ss: Session, s: Server)
    requires ValidSession(ss) && ServerInv(ss, s)
    ensures s.out <= Input(ss)
    ensures s.phase in {Receiving, LastAck, Finished} && s.ackNum == End(ss) + 1 ==> s.out == Input(ss)
    ensures s.phase == Receiving && s.ackNum == End(ss) ==> s.out == Input(ss)
    ensures Flatten(ss.chunks[..0]) == []
  {
    if s.phase == Receiving { WrittenSoFar(ss, s, 0); }
  }

  lemma ServerHeadMoves(ss: Session, c: Client, s: Server, e: ServerEnv)
    requires ValidSession(ss) && ServerInv(ss, s) && Cross(ss, c, s) && !s.waiting && s.phase != Finished
    ensures ServerMoves(ss, c, s, ServerHead(ServerConf(ss), s, e), [])
  {
    hide Input, Flatten, ClientInv;
    OutSoFar(ss, s);
  }

  // A packet the server may be handed.
  ghost predicate ForServer(ss: Session, c: Client, s: Server, p: Packet)
  {
    UpOk(ss, c, s, p) || (Foreign(ss, p) && (p.flags == FLAG_SYN ==> s.phase != Listening))
  }

  lemma ReceiveDataMoves(ss: Session, c: Client, s: Server, e: ServerEnv, p: Packet)
    requires ValidSession(ss) && ClientInv(ss.isn, ss.chunks, c) && ServerInv(ss, s) && Cross(ss, c, s)
    requires !s.waiting && s.phase == Receiving && ForServer(ss, c, s, p) && p.flags == FLAG_DATA && p.connId == s.connId
    ensures var (s', sent) := ReceiveData(s, e, p); ServerMoves(ss, c, s, s', sent)
  {
    hide Input, Flatten, ClientInv;
    WrittenSoFar(ss, s, e.written);
    assert IsData(ss, p);
  }

  lemma ServerReceiveMoves(ss: Session, c: Client, s: Server, e: ServerEnv, p: Packet)
    requires ValidSession(ss) && ClientInv(ss.isn, ss.chunks, c) && ServerInv(ss, s) && Cross(ss, c, s)
    requires !s.waiting && s.phase != Finished && ForServer(ss, c, s, p)
    ensures var (s', sent) := ServerReceive(ServerConf(ss), s, e, p); ServerMoves(ss, c, s, s', sent)
  {
    hide Input, Flatten, ReceiveData, ClientInv;
    OutSoFar(ss, s);
    if s.phase == Receiving && p.flags == FLAG_DATA && p.connId == s.connId {
      ReceiveDataMoves(ss, c, s, e, p);
    }
  }

  lemma ServerTailMoves(ss: Session, c: Client, s: Server, e: ServerEnv)
    requires ValidSession(ss) && ClientInv(ss.isn, ss.chunks, c) && ServerInv(ss, s) && Cross(ss, c, s)
    requires !s.waiting && s.phase != Finished && (e.outcome.Recv? ==> ForServer(ss, c, s, e.outcome.p))
    ensures var (s', sent) := ServerTail(ServerConf(ss), s, e); ServerMoves(ss, c, s, s', sent)
  {
    hide Input, Flatten, ServerReceive, ClientInv;
    if e.outcome.Recv? {
      ServerReceiveMoves(ss, c, s.(addr := e.outcome.src), e, e.outcome.p);
    } else {
      OutSoFar(ss, s);
    }
  }

  // ---- the system ----

  lemma ClientActKeeps(ss: Session, st: System, e: ClientEnv)
    requires ValidSession(ss) && Inv(ss, st) && Enabled(ss, st, ClientActs(e))
    ensures Inv(ss, Apply(ss, st, ClientActs(e)))
  {
    hide ClientTail, TransferHead, ChunkRun, ServerInv;
    var (c', sent) := ClientStep(ClientConf(ss), st.c, e);
    ClientStepKeeps(ClientConf(ss), ss.chunks, st.c, e);
    if st.c.waiting {
      ClientTailMoves(ss, st.c.(now := e.t, waiting := false, deadline := 0), st.s, e);
    } else if st.c.phase == Transfer {
      TransferHeadMoves(ss, st.c.(now := e.t), st.s, e);
    } else {
      ClientHeadMoves(ss, st.c.(now := e.t), st.s, e);
    }
    forall p | p in st.toServer ensures UpOk(ss, c', st.s, p) {
      UpOkAfterClient(ss, st.c, c', st.s, p);
    }
  }

  lemma ServerActKeeps(ss: Session, st: System, e: ServerEnv)
    requires ValidSession(ss) && Inv(ss, st) && Enabled(ss, st, ServerActs(e))
    ensures Inv(ss, Apply(ss, st, ServerActs(e)))
  {
    hide ServerHead, ServerTail, ClientInv, Flatten;
    var (s', sent) := ServerStep(ServerConf(ss), st.s, e);
    if st.s.waiting {
      ServerTailMoves(ss, st.c, st.s.(now := e.t, waiting := false, deadline := 0), e);
    } else {
      ServerHeadMoves(ss, st.c, st.s.(now := e.t), e);
    }
    forall p | p in st.toServer ensures UpOk(ss, st.c, s', p) {
      UpOkAfterServer(ss, st.c, st.s, s', p);
    }
    forall p | p in st.toClient ensures DownOk(ss, s', p) {
      DownOkAfterServer(ss, st.s, s', p);
    }
  }

  // Every step of either machine, and every loss, keeps the invariant.
  lemma StepKeeps(ss: Session, st: System, a: Action)
    requires ValidSession(ss) && Inv(ss, st) && Enabled(ss, st, a)
    ensures Inv(ss, Apply(ss, st, a))
  {
    match a
    case ClientActs(e) => ClientActKeeps(ss, st, e);
    case ServerActs(e) => ServerActKeeps(ss, st, e);
    case Lose(up, down) =>
  }

  lemma StartInv(ss: Session, clientNow: nat, serverNow: nat)
    requires ValidSession(ss)
    ensures Inv(ss, Start(ss, clientNow, serverNow))
  {
  }

  lemma {:induction false} RunKeeps(ss: Session, st: System, acts: seq<Action>)
    requires ValidSession(ss) && Inv(ss, st) && CanRun(ss, st, acts)
    ensures Inv(ss, Run(ss, st, acts))
    decreases |acts|
  {
    hide Inv, Apply, Enabled;
    if acts != [] {
      StepKeeps(ss, st, acts[0]);
      RunKeeps(ss, Apply(ss, st, acts[0]), acts[1..]);
    }
  }
}
