// The same two machines over a network of serialized buffers, any copy of
// which may be cut short or have two adjacent bytes damaged on the way.

module ByteNetwork {
  import opened Wrappers
  import opened Wire
  import opened Codec
  import opened ErrorDetection
  import opened ClientMachine
  import opened ServerMachine
  import opened Network
  import opened Invariant
  import opened Safety

  datatype ByteSystem = ByteSystem(c: Client, s: Server, toServer: set<seq<Byte>>, toClient: set<seq<Byte>>)

  datatype Datagram = Datagram(bytes: seq<Byte>, src: Host)

  // A tail is handed a datagram, Some(wire), or whatever else its environment says.
  datatype ByteAction =
    | ClientBytes(ce: ClientEnv, wire: Option<Datagram>)
    | ServerBytes(se: ServerEnv, wire: Option<Datagram>)
    | LoseBytes(up: set<seq<Byte>>, down: set<seq<Byte>>)

  // recv_packet on a datagram.
  function Received(wire: Datagram): Outcome
  {
    match Parse(wire.bytes) case Ok(p) => Recv(p, wire.src) case Err => Malformed(wire.src)
  }

  function ClientSees(e: ClientEnv, wire: Option<Datagram>): ClientEnv
  {
    if wire.Some? then e.(outcome := Received(wire.value)) else e
  }

  function ServerSees(e: ServerEnv, wire: Option<Datagram>): ServerEnv
  {
    if wire.Some? then e.(outcome := Received(wire.value)) else e
  }

  // d is what the network made of one of the buffers in net.
  ghost predicate Delivered(net: set<seq<Byte>>, d: Datagram)
  {
    d.src == Peer && exists b :: b in net && Carried(b, d.bytes)
  }

  ghost predicate ForeignBytes(ss: Session, d: Datagram)
  {
    Parse(d.bytes).Ok? ==> Foreign(ss, Parse(d.bytes).value)
  }

  ghost predicate ByteEnabled(ss: Session, bst: ByteSystem, a: ByteAction)
  {
    match a
    case ClientBytes(e, wire) =>
      && bst.c.phase != Done
      && (bst.c.waiting ==>
            match wire
            case Some(d) => Delivered(bst.toClient, d) || ForeignBytes(ss, d)
            case None => !e.outcome.Recv?)
    case ServerBytes(e, wire) =>
      && bst.s.phase != Finished
      && (bst.s.waiting ==>
            match wire
            case Some(d) =>
              || Delivered(bst.toServer, d)
              || (ForeignBytes(ss, d) && (Parse(d.bytes).Ok? && Parse(d.bytes).value.flags == FLAG_SYN ==> bst.s.phase != Listening))
            case None => !e.outcome.Recv?)
    case LoseBytes(_, _) => true
  }

  function Images(net: set<Packet>): set<seq<Byte>>
  {
    set p | p in net :: Serialize(p)
  }

  function ByteApply(ss: Session, bst: ByteSystem, a: ByteAction): ByteSystem
  {
    match a
    case ClientBytes(e, wire) =>
      var (c, sent) := ClientStep(ClientConf(ss), bst.c, ClientSees(e, wire));
      bst.(c := c, toServer := bst.toServer + Images(Emitted(c.addr, sent)))
    case ServerBytes(e, wire) =>
      var (s, sent) := ServerStep(ServerConf(ss), bst.s, ServerSees(e, wire));
      bst.(s := s, toClient := bst.toClient + Images(Emitted(s.addr, sent)))
    case LoseBytes(up, down) =>
      bst.(toServer := bst.toServer - up, toClient := bst.toClient - down)
  }

  function ByteStart(ss: Session, clientNow: nat, serverNow: nat): ByteSystem
  {
    ByteSystem(ClientStart(ss.chunks, clientNow), ServerStart(serverNow), {}, {})
  }

  ghost predicate ByteCanRun(ss: Session, bst: ByteSystem, acts: seq<ByteAction>)
    decreases |acts|
  {
    acts == [] || (ByteEnabled(ss, bst, acts[0]) && ByteCanRun(ss, ByteApply(ss, bst, acts[0]), acts[1..]))
  }

  function ByteRun(ss: Session, bst: ByteSystem, acts: seq<ByteAction>): ByteSystem
    decreases |acts|
  {
    if acts == [] then bst else ByteRun(ss, ByteApply(ss, bst, acts[0]), acts[1..])
  }

  // Every buffer in net is the image of a packet in packets.
  ghost predicate Represents(net: set<seq<Byte>>, packets: set<Packet>)
  {
    forall b :: b in net ==> exists p :: p in packets && b == Serialize(p)
  }

  ghost predicate Refines(bst: ByteSystem, st: System)
  {
    && bst.c == st.c && bst.s == st.s
    && Represents(bst.toServer, st.toServer) && Represents(bst.toClient, st.toClient)
  }

  // A delivered buffer is dropped, or is read as a packet that is in transit.
  lemma DeliveredIsSent(net: set<seq<Byte>>, packets: set<Packet>, d: Datagram)
    requires Represents(net, packets) && Delivered(net, d)
    ensures Received(d) == Malformed(Peer) || (Received(d).Recv? && Received(d).p in packets && Received(d).src == Peer)
  {
    hide Parse, Serialize, Carried;
    var b :| b in net && Carried(b, d.bytes);
    var p :| p in packets && b == Serialize(p);
    CarriedCopy(p, d.bytes);
  }

  lemma RepresentsMore(net: set<seq<Byte>>, packets: set<Packet>, sent: set<Packet>)
    requires Represents(net, packets)
    ensures Represents(net + Images(sent), packets + sent)
  {
    hide Serialize;
    var all := packets + sent;
    forall b | b in net + Images(sent) ensures exists p :: p in all && b == Serialize(p) {
      if b in net {
        var p :| p in packets && b == Serialize(p);
        assert p in all;
      } else {
        var p :| p in sent && b == Serialize(p);
        assert p in all;
      }
    }
  }

  // The packet-level action behind a byte-level one. Losing buffers is matched by
  // losing nothing: the packet network may keep more than the byte network has.
  function Lifted(a: ByteAction): Action
  {
    match a
    case ClientBytes(e, wire) => ClientActs(ClientSees(e, wire))
    case ServerBytes(e, wire) => ServerActs(ServerSees(e, wire))
    case LoseBytes(_, _) => Lose({}, {})
  }

  // Every byte-level step is a packet-level step.
  lemma StepRefines(ss: Session, bst: ByteSystem, st: System, a: ByteAction)
    requires Refines(bst, st) && ByteEnabled(ss, bst, a)
    ensures Enabled(ss, st, Lifted(a)) && Refines(ByteApply(ss, bst, a), Apply(ss, st, Lifted(a)))
  {
    hide Parse, Serialize, Carried, ClientStep, ServerStep, Represents;
    match a
    case ClientBytes(e, wire) =>
      if wire.Some? && Delivered(bst.toClient, wire.value) {
        DeliveredIsSent(bst.toClient, st.toClient, wire.value);
      }
      var (c, sent) := ClientStep(ClientConf(ss), bst.c, ClientSees(e, wire));
      RepresentsMore(bst.toServer, st.toServer, Emitted(c.addr, sent));
    case ServerBytes(e, wire) =>
      if wire.Some? && Delivered(bst.toServer, wire.value) {
        DeliveredIsSent(bst.toServer, st.toServer, wire.value);
      }
      var (s, sent) := ServerStep(ServerConf(ss), bst.s, ServerSees(e, wire));
      RepresentsMore(bst.toClient, st.toClient, Emitted(s.addr, sent));
    case LoseBytes(up, down) =>
      RepresentsFewer(bst.toServer, st.toServer, up);
      RepresentsFewer(bst.toClient, st.toClient, down);
      assert st.toServer - {} == st.toServer && st.toClient - {} == st.toClient;
  }

  lemma RepresentsFewer(net: set<seq<Byte>>, packets: set<Packet>, lost: set<seq<Byte>>)
    requires Represents(net, packets)
    ensures Represents(net - lost, packets)
  {
  }

  function LiftedRun(acts: seq<ByteAction>): seq<Action>
  {
    if acts == [] then [] else [Lifted(acts[0])] + LiftedRun(acts[1..])
  }

  lemma {:induction false} RunRefines(ss: Session, bst: ByteSystem, st: System, acts: seq<ByteAction>)
    requires Refines(bst, st) && ByteCanRun(ss, bst, acts)
    ensures CanRun(ss, st, LiftedRun(acts)) && Refines(ByteRun(ss, bst, acts), Run(ss, st, LiftedRun(acts)))
    decreases |acts|
  {
    hide ByteEnabled, Enabled, ByteApply, Apply, Refines, Lifted;
    if acts != [] {
      StepRefines(ss, bst, st, acts[0]);
      RunRefines(ss, ByteApply(ss, bst, acts[0]), Apply(ss, st, Lifted(acts[0])), acts[1..]);
      assert LiftedRun(acts)[1..] == LiftedRun(acts[1..]);
    }
  }

  // ---- the other direction: intact copies realize every packet-level run ----

  ghost predicate Mirrors(bst: ByteSystem, st: System)
  {
    && bst.c == st.c && bst.s == st.s
    && bst.toServer == Images(st.toServer) && bst.toClient == Images(st.toClient)
  }

  function AsBytes(outcome: Outcome): Option<Datagram>
  {
    if outcome.Recv? then Some(Datagram(Serialize(outcome.p), outcome.src)) else None
  }

  function Lowered(a: Action): ByteAction
  {
    match a
    case ClientActs(e) => ClientBytes(e, AsBytes(e.outcome))
    case ServerActs(e) => ServerBytes(e, AsBytes(e.outcome))
    case Lose(up, down) => LoseBytes(Images(up), Images(down))
  }

  lemma ReceivedAsBytes(outcome: Outcome)
    ensures AsBytes(outcome).Some? ==> outcome.Recv? && Received(AsBytes(outcome).value) == outcome
  {
    hide Parse, Serialize;
    if outcome.Recv? { ParseSerialize(outcome.p); }
  }

  lemma IntactCopy(net: set<Packet>, p: Packet)
    requires p in net
    ensures Delivered(Images(net), Datagram(Serialize(p), Peer))
  {
    hide Serialize;
    assert Serialize(p) in Images(net);
  }

  lemma ImagesLost(net: set<Packet>, lost: set<Packet>)
    ensures Images(net) - Images(lost) == Images(net - lost)
  {
    hide Serialize;
    forall b | b in Images(net - lost) ensures b !in Images(lost) {
      var p :| p in net - lost && b == Serialize(p);
      forall q | q in lost && Serialize(q) == b ensures false { SerializeInjective(p, q); }
    }
  }

  lemma ImagesSent(net: set<Packet>, sent: set<Packet>)
    ensures Images(net) + Images(sent) == Images(net + sent)
  {
    hide Serialize;
  }

  lemma StepIsMirrored(ss: Session, bst: ByteSystem, st: System, a: Action)
    requires Mirrors(bst, st) && Enabled(ss, st, a)
    ensures ByteEnabled(ss, bst, Lowered(a)) && Mirrors(ByteApply(ss, bst, Lowered(a)), Apply(ss, st, a))
  {
    hide Parse, Serialize, Carried, ClientStep, ServerStep, Images, Delivered;
    match a
    case ClientActs(e) =>
      ReceivedAsBytes(e.outcome);
      if e.outcome.Recv? && e.outcome.p in st.toClient { IntactCopy(st.toClient, e.outcome.p); }
      var (c, sent) := ClientStep(ClientConf(ss), st.c, e);
      ImagesSent(st.toServer, Emitted(c.addr, sent));
    case ServerActs(e) =>
      ReceivedAsBytes(e.outcome);
      if e.outcome.Recv? && e.outcome.p in st.toServer { IntactCopy(st.toServer, e.outcome.p); }
      var (s, sent) := ServerStep(ServerConf(ss), st.s, e);
      ImagesSent(st.toClient, Emitted(s.addr, sent));
    case Lose(up, down) =>
      ImagesLost(st.toServer, up);
      ImagesLost(st.toClient, down);
  }

  function LoweredRun(acts: seq<Action>): seq<ByteAction>
  {
    if acts == [] then [] else [Lowered(acts[0])] + LoweredRun(acts[1..])
  }

  lemma {:induction false} RunIsMirrored(ss: Session, bst: ByteSystem, st: System, acts: seq<Action>)
    requires Mirrors(bst, st) && CanRun(ss, st, acts)
    ensures ByteCanRun(ss, bst, LoweredRun(acts)) && Mirrors(ByteRun(ss, bst, LoweredRun(acts)), Run(ss, st, acts))
    decreases |acts|
  {
    hide ByteEnabled, Enabled, ByteApply, Apply, Mirrors, Lowered;
    if acts != [] {
      StepIsMirrored(ss, bst, st, acts[0]);
      RunIsMirrored(ss, ByteApply(ss, bst, Lowered(acts[0])), Apply(ss, st, acts[0]), acts[1..]);
      assert LoweredRun(acts)[1..] == LoweredRun(acts[1..]);
    }
  }

  ghost predicate ByteReachable(ss: Session, bst: ByteSystem)
  {
    exists clientNow: nat, serverNow: nat, acts: seq<ByteAction> ::
      ByteCanRun(ss, ByteStart(ss, clientNow, serverNow), acts) && bst == ByteRun(ss, ByteStart(ss, clientNow, serverNow), acts)
  }

  lemma BytesToPackets(ss: Session, bst: ByteSystem) returns (st: System)
    requires ByteReachable(ss, bst)
    ensures Reachable(ss, st) && Refines(bst, st)
  {
    hide ByteCanRun, ByteRun, CanRun, Run;
    var clientNow: nat, serverNow: nat, acts: seq<ByteAction> :|
      ByteCanRun(ss, ByteStart(ss, clientNow, serverNow), acts) && bst == ByteRun(ss, ByteStart(ss, clientNow, serverNow), acts);
    RunRefines(ss, ByteStart(ss, clientNow, serverNow), Start(ss, clientNow, serverNow), acts);
    st := Run(ss, Start(ss, clientNow, serverNow), LiftedRun(acts));
  }

  lemma PacketsToBytes(ss: Session, st: System) returns (bst: ByteSystem)
    requires Reachable(ss, st)
    ensures ByteReachable(ss, bst) && Mirrors(bst, st)
  {
    hide ByteCanRun, ByteRun, CanRun, Run;
    var clientNow: nat, serverNow: nat, acts: seq<Action> :|
      CanRun(ss, Start(ss, clientNow, serverNow), acts) && st == Run(ss, Start(ss, clientNow, serverNow), acts);
    RunIsMirrored(ss, ByteStart(ss, clientNow, serverNow), Start(ss, clientNow, serverNow), acts);
    bst := ByteRun(ss, ByteStart(ss, clientNow, serverNow), LoweredRun(acts));
  }

  // A network of bytes that truncates and damages takes the two machines through
  // exactly the states the packet network does, no more and no fewer.
  lemma SameBehaviours(ss: Session, c: Client, s: Server)
    ensures (exists bst :: ByteReachable(ss, bst) && bst.c == c && bst.s == s)
       <==> (exists st :: Reachable(ss, st) && st.c == c && st.s == s)
  {
    hide ByteReachable, Reachable;
    if bst: ByteSystem :| ByteReachable(ss, bst) && bst.c == c && bst.s == s {
      var st := BytesToPackets(ss, bst);
    }
    if st: System :| Reachable(ss, st) && st.c == c && st.s == s {
      var bst := PacketsToBytes(ss, st);
    }
  }

  // The end-to-end guarantees over a network of bytes that may truncate any
  // copy or damage up to two adjacent bytes of it (short of a 00 00 / FF FF flip).
  lemma EndToEnd(ss: Session, clientNow: nat, serverNow: nat, acts: seq<ByteAction>, fileClosed: bool, socketClosed: bool)
    requires ValidSession(ss) && ByteCanRun(ss, ByteStart(ss, clientNow, serverNow), acts)
    ensures var bst := ByteRun(ss, ByteStart(ss, clientNow, serverNow), acts);
            && bst.s.out <= Input(ss)
            && (bst.s.phase in {Handshaking, Receiving} ==>
                  First(ss) <= bst.s.ackNum <= End(ss) && bst.s.out == Flatten(ss.chunks[..bst.s.ackNum - First(ss)]))
            && (bst.s.phase == LastAck || bst.c.phase == TimeWait ==> bst.s.out == Input(ss))
            && (bst.c.phase == Done && ClientExit(bst.c, fileClosed, socketClosed) == EX_OK ==> bst.s.out == Input(ss))
            && (bst.s.phase == Finished && ServerExit(bst.s, fileClosed, socketClosed) == EX_OK ==> bst.s.out == Input(ss))
  {
    hide ByteCanRun, ByteRun, CanRun, Run, Flatten;
    var bst0, st0 := ByteStart(ss, clientNow, serverNow), Start(ss, clientNow, serverNow);
    RunRefines(ss, bst0, st0, acts);
    var st := Run(ss, st0, LiftedRun(acts));
    assert Reachable(ss, st);
    OutputIsPrefix(ss, st);
    CleanCompletion(ss, st, fileClosed, socketClosed);
  }
}
