// The client and server objects in one session: fed, turn by turn, with what a
// run of the network hands them, they do exactly what that run says.

module Processes {
  import opened Wrappers
  import opened Wire
  import opened SenderWindow
  import opened ClientMachine
  import opened ServerMachine
  import opened Network
  import opened Invariant
  import opened Safety
  import opened ClientProcess
  import opened ServerProcess

  // What one machine is handed in a run: its completed turns, and the head of a
  // turn that is still in its wait.
  datatype Feed<E> = Feed(turns: seq<(E, E)>, head: Option<E>)

  function Fed<E>(f: Feed<E>, e: E, waits: bool): Feed<E>
  {
    if f.head.Some? then Feed(f.turns + [(f.head.value, e)], None)
    else if waits then Feed(f.turns, Some(e))
    else Feed(f.turns + [(e, e)], None)
  }

  function ClientFeed(ss: Session, st: System, acts: seq<Action>): Feed<ClientEnv>
    decreases |acts|
  {
    if acts == [] then Feed([], None)
    else
      var front := acts[..|acts| - 1];
      match acts[|acts| - 1]
      case ClientActs(e) =>
        Fed(ClientFeed(ss, st, front), e, ClientStep(ClientConf(ss), Run(ss, st, front).c, e).0.waiting)
      case _ => ClientFeed(ss, st, front)
  }

  function ServerFeed(ss: Session, st: System, acts: seq<Action>): Feed<ServerEnv>
    decreases |acts|
  {
    if acts == [] then Feed([], None)
    else
      var front := acts[..|acts| - 1];
      match acts[|acts| - 1]
      case ServerActs(e) =>
        Fed(ServerFeed(ss, st, front), e, ServerStep(ServerConf(ss), Run(ss, st, front).s, e).0.waiting)
      case _ => ServerFeed(ss, st, front)
  }

  // Every send_packet call of the client in a run, in order.
  function ClientSent(ss: Session, st: System, acts: seq<Action>): seq<Packet>
    decreases |acts|
  {
    if acts == [] then []
    else
      var front := acts[..|acts| - 1];
      match acts[|acts| - 1]
      case ClientActs(e) => ClientSent(ss, st, front) + ClientStep(ClientConf(ss), Run(ss, st, front).c, e).1
      case _ => ClientSent(ss, st, front)
  }

  function ServerSent(ss: Session, st: System, acts: seq<Action>): seq<Packet>
    decreases |acts|
  {
    if acts == [] then []
    else
      var front := acts[..|acts| - 1];
      match acts[|acts| - 1]
      case ServerActs(e) => ServerSent(ss, st, front) + ServerStep(ServerConf(ss), Run(ss, st, front).s, e).1
      case _ => ServerSent(ss, st, front)
  }

  lemma {:induction false} RunFromTheBack(ss: Session, st: System, acts: seq<Action>)
    requires CanRun(ss, st, acts) && acts != []
    ensures var front, a := acts[..|acts| - 1], acts[|acts| - 1];
            && CanRun(ss, st, front) && Enabled(ss, Run(ss, st, front), a)
            && Run(ss, st, acts) == Apply(ss, Run(ss, st, front), a)
    decreases |acts|
  {
    hide Enabled, Apply;
    var front := acts[..|acts| - 1];
    if |acts| == 1 {
      assert front == [] && acts[1..] == [];
    } else {
      RunFromTheBack(ss, Apply(ss, st, acts[0]), acts[1..]);
      assert acts[1..][..|acts[1..]| - 1] == front[1..];
    }
  }

  // The client of a run is the one its completed turns lead to, with the head of
  // the turn it is in, if any, on top; and so is what it has sent.
  ghost predicate ClientFollows(cfg: ClientConfig, c0: Client, f: Feed<ClientEnv>, c: Client, sent: seq<Packet>)
  {
    var (c1, sent1) := ClientTurns(cfg, c0, f.turns);
    && !c1.waiting
    && match f.head
       case None => c == c1 && sent == sent1
       case Some(h) => c.waiting && c.phase != Done && c == ClientStep(cfg, c1, h).0 && sent == sent1 + ClientStep(cfg, c1, h).1
  }

  lemma ClientFollowsStep(cfg: ClientConfig, c0: Client, f: Feed<ClientEnv>, c: Client, sent: seq<Packet>, e: ClientEnv)
    requires ClientFollows(cfg, c0, f, c, sent)
    ensures var (c', out) := ClientStep(cfg, c, e);
            ClientFollows(cfg, c0, Fed(f, e, c'.waiting), c', sent + out)
  {
    hide ClientStep;
    var turns := Fed(f, e, ClientStep(cfg, c, e).0.waiting).turns;
    if |turns| > |f.turns| {
      assert turns[..|turns| - 1] == f.turns;
    }
    if f.head.Some? {
      WaitEnds(cfg, c, e);
      var (c1, sent1) := ClientTurns(cfg, c0, f.turns);
      var (c', out) := ClientStep(cfg, c, e);
      assert sent1 + (ClientStep(cfg, c1, f.head.value).1 + out) == sent + out;
    } else if ClientStep(cfg, c, e).0.waiting {
      ClientHeadShows(cfg, c, e);
    }
  }

  // A tail does not end in a wait.
  lemma WaitEnds(cfg: ClientConfig, c: Client, e: ClientEnv)
    requires c.waiting
    ensures !ClientStep(cfg, c, e).0.waiting || c.phase == Done
  {
    hide OnAck;
    if c.phase == Transfer && e.outcome.Recv? {
      AckKeepsGoing(c.(now := e.t, waiting := false, deadline := 0, addr := e.outcome.src), e.outcome.p.ackNum);
    }
  }

  lemma AckKeepsGoing(c: Client, ackNum: U32)
    ensures OnAck(c, ackNum).0.waiting == c.waiting
  {
  }

  lemma {:induction false} ClientIsFed(ss: Session, st: System, acts: seq<Action>)
    requires CanRun(ss, st, acts) && !st.c.waiting
    ensures ClientFollows(ClientConf(ss), st.c, ClientFeed(ss, st, acts), Run(ss, st, acts).c, ClientSent(ss, st, acts))
    decreases |acts|
  {
    hide ClientStep, ServerStep, Enabled, ClientFollows;
    if acts == [] {
      NothingFed(ClientConf(ss), st.c);
    } else {
      var front := acts[..|acts| - 1];
      RunFromTheBack(ss, st, acts);
      ClientIsFed(ss, st, front);
      if acts[|acts| - 1].ClientActs? {
        ClientFollowsStep(ClientConf(ss), st.c, ClientFeed(ss, st, front), Run(ss, st, front).c, ClientSent(ss, st, front),
                          acts[|acts| - 1].ce);
      }
    }
  }

  lemma NothingFed(cfg: ClientConfig, c: Client)
    requires !c.waiting
    ensures ClientFollows(cfg, c, Feed([], None), c, [])
  {
  }

  ghost predicate ServerFollows(cfg: ServerConfig, s0: Server, f: Feed<ServerEnv>, s: Server, sent: seq<Packet>)
  {
    var (s1, sent1) := ServerTurns(cfg, s0, f.turns);
    && !s1.waiting && sent == sent1
    && match f.head
       case None => s == s1
       case Some(h) => s.waiting && s.phase != Finished && s == ServerStep(cfg, s1, h).0
  }

  lemma ServerFollowsStep(cfg: ServerConfig, s0: Server, f: Feed<ServerEnv>, s: Server, sent: seq<Packet>, e: ServerEnv)
    requires ServerFollows(cfg, s0, f, s, sent)
    ensures var (s', out) := ServerStep(cfg, s, e);
            ServerFollows(cfg, s0, Fed(f, e, s'.waiting), s', sent + out)
  {
    hide ServerStep;
    var turns := Fed(f, e, ServerStep(cfg, s, e).0.waiting).turns;
    if |turns| > |f.turns| {
      assert turns[..|turns| - 1] == f.turns;
    }
    assert sent + [] == sent;
    if f.head.Some? {
      ServerWaitEnds(cfg, s, e);
    } else {
      ServerHeadIsSilent(cfg, s, e);
      if ServerStep(cfg, s, e).0.waiting { ServerHeadShows(cfg, s, e); }
    }
  }

  lemma ServerWaitEnds(cfg: ServerConfig, s: Server, e: ServerEnv)
    requires s.waiting
    ensures !ServerStep(cfg, s, e).0.waiting || s.phase == Finished
  {
  }

  lemma ServerHeadIsSilent(cfg: ServerConfig, s: Server, e: ServerEnv)
    requires !s.waiting
    ensures ServerStep(cfg, s, e).1 == []
  {
  }

  lemma {:induction false} ServerIsFed(ss: Session, st: System, acts: seq<Action>)
    requires CanRun(ss, st, acts) && !st.s.waiting
    ensures ServerFollows(ServerConf(ss), st.s, ServerFeed(ss, st, acts), Run(ss, st, acts).s, ServerSent(ss, st, acts))
    decreases |acts|
  {
    hide ClientStep, ServerStep, Enabled, ServerFollows;
    if acts == [] {
      NothingServed(ServerConf(ss), st.s);
    } else {
      var front := acts[..|acts| - 1];
      RunFromTheBack(ss, st, acts);
      ServerIsFed(ss, st, front);
      if acts[|acts| - 1].ServerActs? {
        ServerFollowsStep(ServerConf(ss), st.s, ServerFeed(ss, st, front), Run(ss, st, front).s, ServerSent(ss, st, front),
                          acts[|acts| - 1].se);
      }
    }
  }

  lemma NothingServed(cfg: ServerConfig, s: Server)
    requires !s.waiting
    ensures ServerFollows(cfg, s, Feed([], None), s, [])
  {
  }

  // A run hands either machine only what the other has sent.
  lemma {:induction false} InTransitWasSent(ss: Session, st: System, acts: seq<Action>)
    requires CanRun(ss, st, acts) && st.toServer == {} && st.toClient == {}
    ensures forall p :: p in Run(ss, st, acts).toServer ==> p in ClientSent(ss, st, acts)
    ensures forall p :: p in Run(ss, st, acts).toClient ==> p in ServerSent(ss, st, acts)
    decreases |acts|
  {
    hide ClientStep, ServerStep, Enabled;
    if acts != [] {
      RunFromTheBack(ss, st, acts);
      InTransitWasSent(ss, st, acts[..|acts| - 1]);
    }
  }

  // ---- what the objects have at the end of their completed turns ----

  // The guarantees, on the client c and server s as their objects show them.
  ghost predicate Delivers(ss: Session, c: Client, s: Server)
  {
    && s.out <= Input(ss)
    && (s.phase in {Handshaking, Receiving} ==>
          First(ss) <= s.ackNum <= End(ss) && s.out == Flatten(ss.chunks[..s.ackNum - First(ss)]))
    && (s.phase == LastAck || c.phase == TimeWait ==> s.out == Input(ss))
    && (c.phase == Done && c.exit == EX_OK ==> s.out == Input(ss))
    && (s.phase == Finished && s.exit == EX_OK ==> s.out == Input(ss))
  }

  lemma ClientHeadShows(cfg: ClientConfig, c: Client, e: ClientEnv)
    requires !c.waiting && ClientStep(cfg, c, e).0.waiting
    ensures ClientStep(cfg, c, e).0.phase == c.phase != Done && ClientStep(cfg, c, e).0.exit == c.exit
  {
    hide TransferHead;
    if c.phase == Transfer { WaitsInTransfer(cfg, c.(now := e.t), e); }
  }

  lemma WaitsInTransfer(cfg: ClientConfig, c: Client, e: ClientEnv)
    requires c.phase == Transfer && !c.waiting
    ensures var c' := TransferHead(cfg, c, e).0; c'.waiting ==> c'.phase == c.phase && c'.exit == c.exit
  {
    hide Refill;
  }

  lemma ServerHeadShows(cfg: ServerConfig, s: Server, e: ServerEnv)
    requires !s.waiting && ServerStep(cfg, s, e).0.waiting
    ensures var s' := ServerStep(cfg, s, e).0; s'.phase == s.phase != Finished && s'.exit == s.exit && s'.out == s.out && s'.ackNum == s.ackNum
  {
  }

  // In every run of the network, the two objects between their turns: the output
  // file is a prefix of the input, and complete once either side ends well.
  lemma ObjectsDeliver(ss: Session, clientNow: nat, serverNow: nat, acts: seq<Action>)
    requires ValidSession(ss) && CanRun(ss, Start(ss, clientNow, serverNow), acts)
    ensures var st := Start(ss, clientNow, serverNow);
            Delivers(ss, ClientTurns(ClientConf(ss), st.c, ClientFeed(ss, st, acts).turns).0,
                     ServerTurns(ServerConf(ss), st.s, ServerFeed(ss, st, acts).turns).0)
  {
    hide CanRun, Run, ClientTurns, ServerTurns, ClientStep, ServerStep, ClientFeed, ServerFeed, Flatten;
    var st := Start(ss, clientNow, serverNow);
    ClientIsFed(ss, st, acts);
    ServerIsFed(ss, st, acts);
    var end := Run(ss, st, acts);
    assert Reachable(ss, end);
    OutputIsPrefix(ss, end);
    CleanCompletion(ss, end, true, true);
    var f, g := ClientFeed(ss, st, acts), ServerFeed(ss, st, acts);
    if f.head.Some? { ClientHeadShows(ClientConf(ss), ClientTurns(ClientConf(ss), st.c, f.turns).0, f.head.value); }
    if g.head.Some? { ServerHeadShows(ServerConf(ss), ServerTurns(ServerConf(ss), st.s, g.turns).0, g.head.value); }
  }

  // Once done, turns change nothing: it does not matter that the state loop stops.
  lemma {:induction false} TurnsAfterDone(cfg: ClientConfig, c: Client, es: seq<(ClientEnv, ClientEnv)>, n: nat)
    requires n <= |es| && (n == |es| || ClientTurns(cfg, c, es[..n]).0.phase == Done) && !ClientTurns(cfg, c, es[..n]).0.waiting
    ensures ClientTurns(cfg, c, es) == ClientTurns(cfg, c, es[..n])
    decreases |es|
  {
    hide ClientHead, ClientTail;
    if n == |es| {
      assert es[..n] == es;
    } else {
      var front := es[..|es| - 1];
      assert front[..n] == es[..n];
      TurnsAfterDone(cfg, c, front, n);
      var sent := ClientTurns(cfg, c, front).1;
      assert sent + [] == sent;
    }
  }

  lemma {:induction false} TurnsAfterFinished(cfg: ServerConfig, s: Server, es: seq<(ServerEnv, ServerEnv)>, n: nat)
    requires n <= |es| && (n == |es| || ServerTurns(cfg, s, es[..n]).0.phase == Finished) && !ServerTurns(cfg, s, es[..n]).0.waiting
    ensures ServerTurns(cfg, s, es) == ServerTurns(cfg, s, es[..n])
    decreases |es|
  {
    hide ServerHead, ServerTail;
    if n == |es| {
      assert es[..n] == es;
    } else {
      var front := es[..|es| - 1];
      assert front[..n] == es[..n];
      TurnsAfterFinished(cfg, s, front, n);
      var sent := ServerTurns(cfg, s, front).1;
      assert sent + [] == sent;
    }
  }

  // Whoever returns 0 leaves a complete file.
  lemma ZeroMeansAll(ss: Session, c: Client, s: Server)
    requires Delivers(ss, c, s) && ((c.phase == Done && c.exit == 0) || (s.phase == Finished && s.exit == 0))
    ensures s.out == Input(ss)
  {
  }

  // Both programs over one run of the network: run_client and run_server, each
  // fed what the run hands it, and their return codes if they come to an end.
  // closed tells which files and sockets can be closed.
  method RunSession(ss: Session, clientNow: nat, serverNow: nat, acts: seq<Action>, closed: ((bool, bool), (bool, bool)))
    returns (client: ClientLoop, server: ServerLoop, clientSent: seq<Packet>, serverSent: seq<Packet>,
             clientCode: Option<int>, serverCode: Option<int>)
    requires ValidSession(ss) && CanRun(ss, Start(ss, clientNow, serverNow), acts)
    ensures fresh(client) && fresh(server) && client.Valid() && Delivers(ss, client.View(), server.View())
    ensures var st := Start(ss, clientNow, serverNow); var end := Run(ss, st, acts);
            && ClientFollows(ClientConf(ss), st.c, ClientFeed(ss, st, acts), end.c, ClientSent(ss, st, acts))
            && ServerFollows(ServerConf(ss), st.s, ServerFeed(ss, st, acts), end.s, ServerSent(ss, st, acts))
            && (client.View(), clientSent) == ClientTurns(ClientConf(ss), st.c, ClientFeed(ss, st, acts).turns)
            && (server.View(), serverSent) == ServerTurns(ServerConf(ss), st.s, ServerFeed(ss, st, acts).turns)
    ensures (clientCode.Some? <==> client.state == Done) && (serverCode.Some? <==> server.state == Finished)
    ensures clientCode == Some(0) <==> client.state == Done && client.exitCode == 0 && closed.0.0 && closed.0.1
    ensures serverCode == Some(0) <==> server.state == Finished && server.exitCode == 0 && closed.1.0 && closed.1.1
    ensures clientCode == Some(0) || serverCode == Some(0) ==> server.file == Input(ss)
  {
    hide CanRun, Run, ClientTurns, ServerTurns, ClientFeed, ServerFeed, ClientSent, ServerSent,
         ClientFollows, ServerFollows, Delivers, GBNSenderState.Valid, GBNSenderState.View, Input;
    var st := Start(ss, clientNow, serverNow);
    client := new ClientLoop(ClientConf(ss), ss.chunks, clientNow);
    server := new ServerLoop(ServerConf(ss), serverNow);
    var n, m;
    var es, fs := ClientFeed(ss, st, acts).turns, ServerFeed(ss, st, acts).turns;
    clientSent, n := client.RunClient(es);
    serverSent, m := server.RunServer(fs);
    TurnsAfterDone(ClientConf(ss), st.c, es, n);
    TurnsAfterFinished(ServerConf(ss), st.s, fs, m);
    ObjectsDeliver(ss, clientNow, serverNow, acts);
    ClientIsFed(ss, st, acts);
    ServerIsFed(ss, st, acts);
    clientCode, serverCode := None, None;
    if client.state == Done {
      var code := client.Close(closed.0.0, closed.0.1);
      clientCode := Some(code);
    }
    if server.state == Finished {
      var code := server.Close(closed.1.0, closed.1.1);
      serverCode := Some(code);
    }
    if clientCode == Some(0) || serverCode == Some(0) {
      ZeroMeansAll(ss, client.View(), server.View());
    }
  }
}
