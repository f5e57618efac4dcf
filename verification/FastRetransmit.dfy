// The duplicate-ACK counter of handle_established, over whole runs of the client.

module FastRetransmit {
  import opened Wrappers
  import opened Wire
  import opened SenderWindow
  import opened ClientMachine

  // An ACK of this connection taken in during transfer; advancing when it falls in (base, next].
  datatype AckEvent = AckEvent(ackNum: U32, advancing: bool)

  function MatchedAck(c: Client, e: ClientEnv): seq<AckEvent>
  {
    if c.phase == Transfer && c.waiting && e.outcome.Recv?
       && e.outcome.p.flags == FLAG_ACK && e.outcome.p.connId == c.connId
    then [AckEvent(e.outcome.p.ackNum, c.window.base < e.outcome.p.ackNum <= c.window.next)]
    else []
  }

  // The client when it looks at the packet it was handed.
  function Hearing(c: Client, e: ClientEnv): Client
    requires e.outcome.Recv?
  {
    c.(now := e.t, waiting := false, deadline := 0, addr := e.outcome.src)
  }

  function AckHistory(cfg: ClientConfig, c: Client, es: seq<ClientEnv>): seq<AckEvent>
    decreases |es|
  {
    if es == [] then []
    else MatchedAck(c, es[0]) + AckHistory(cfg, ClientStep(cfg, c, es[0]).0, es[1..])
  }

  // The length of the trailing run of equal, non-advancing acknowledgement numbers.
  function TrailingRun(h: seq<AckEvent>): (r: nat)
    ensures r <= |h|
  {
    if h == [] || h[|h| - 1].advancing then 0
    else if |h| >= 2 && h[|h| - 2] == h[|h| - 1] then 1 + TrailingRun(h[..|h| - 1])
    else 1
  }

  // It is that run: its members are equal and non-advancing, and it cannot be extended to the left.
  lemma {:induction false} TrailingRunMeaning(h: seq<AckEvent>)
    ensures var r := TrailingRun(h);
            && (forall i :: |h| - r <= i < |h| ==> !h[i].advancing && h[i].ackNum == h[|h| - 1].ackNum)
            && (0 < r < |h| ==> h[|h| - 1 - r].advancing || h[|h| - 1 - r].ackNum != h[|h| - 1].ackNum)
            && (r == 0 <==> h == [] || h[|h| - 1].advancing)
  {
    if |h| >= 2 && !h[|h| - 1].advancing && h[|h| - 2] == h[|h| - 1] {
      TrailingRunMeaning(h[..|h| - 1]);
    }
  }

  // The counter agrees with the history seen so far.
  ghost predicate Counts(c: Client, h: seq<AckEvent>)
  {
    && (c.phase in {Closed, SynSent, Established} ==> h == [])
    && (c.phase == Transfer ==>
          && c.dups == TrailingRun(h) % 3
          && (h != [] ==> c.lastAck == h[|h| - 1].ackNum))
  }

  lemma CountsOneAck(c: Client, h: seq<AckEvent>, ackNum: U32)
    requires c.phase == Transfer && Counts(c, h)
    ensures var x := AckEvent(ackNum, c.window.base < ackNum <= c.window.next);
            && Counts(OnAck(c, ackNum).0, h + [x])
            && OnAck(c, ackNum).1 == (if !x.advancing && TrailingRun(h + [x]) % 3 == 0 then c.window.pending else [])
  {
    var x := AckEvent(ackNum, c.window.base < ackNum <= c.window.next);
    assert (h + [x])[..|h|] == h;
    assert TrailingRun(h + [x]) ==
           if x.advancing then 0
           else if h != [] && h[|h| - 1] == x then 1 + TrailingRun(h)
           else 1;
  }

  lemma MatchedAckStep(cfg: ClientConfig, c: Client, e: ClientEnv)
    requires MatchedAck(c, e) != []
    ensures e.outcome.Recv?
    ensures ClientStep(cfg, c, e) == OnAck(Hearing(c, e), e.outcome.p.ackNum)
  {
    hide OnAck;
  }

  // Nothing but a matching ACK touches the counter during transfer, and it starts at zero.
  lemma CountersStay(cfg: ClientConfig, c: Client, e: ClientEnv)
    requires MatchedAck(c, e) == []
    ensures var c' := ClientStep(cfg, c, e).0;
            && (c'.phase == Transfer ==> c.phase in {Established, Transfer})
            && (c'.phase == Transfer && c.phase == Transfer ==> c'.dups == c.dups && c'.lastAck == c.lastAck)
            && (c'.phase == Transfer && c.phase == Established ==> c'.dups == 0)
            && (c'.phase in {Closed, SynSent, Established} ==> c.phase in {Closed, SynSent, Established})
  {
    hide OnAck, Refill;
  }

  lemma EmptyHistory()
    ensures TrailingRun([]) == 0
  {
  }

  lemma CountsStep(cfg: ClientConfig, c: Client, h: seq<AckEvent>, e: ClientEnv)
    requires Counts(c, h)
    ensures Counts(ClientStep(cfg, c, e).0, h + MatchedAck(c, e))
  {
    hide ClientStep, OnAck, TrailingRun;
    assert h + [] == h;
    if MatchedAck(c, e) != [] {
      MatchedAckStep(cfg, c, e);
      CountsOneAck(Hearing(c, e), h, e.outcome.p.ackNum);
    } else {
      CountersStay(cfg, c, e);
      EmptyHistory();
    }
  }

  lemma {:induction false} CountsRun(cfg: ClientConfig, c: Client, h: seq<AckEvent>, es: seq<ClientEnv>)
    requires Counts(c, h)
    ensures Counts(ClientRun(cfg, c, es), h + AckHistory(cfg, c, es))
    decreases |es|
  {
    hide ClientStep, MatchedAck, Counts;
    assert h + [] == h;
    if es != [] {
      CountsStep(cfg, c, h, es[0]);
      var c1 := ClientStep(cfg, c, es[0]).0;
      CountsRun(cfg, c1, h + MatchedAck(c, es[0]), es[1..]);
      assert h + MatchedAck(c, es[0]) + AckHistory(cfg, c1, es[1..]) == h + AckHistory(cfg, c, es);
    }
  }

  // In every run of the client, whatever the network delivers: during transfer
  // the counter is the length of the trailing run modulo 3, and a matching ACK
  // makes the client resend its whole window exactly when it brings a
  // non-advancing run to a multiple of 3.
  lemma FastRetransmitDetector(cfg: ClientConfig, chunks: seq<Chunk>, start: nat, es: seq<ClientEnv>, e: ClientEnv)
    ensures var c := ClientRun(cfg, ClientStart(chunks, start), es);
            var h := AckHistory(cfg, ClientStart(chunks, start), es);
            && (c.phase == Transfer ==> c.dups == TrailingRun(h) % 3)
            && (MatchedAck(c, e) != [] ==>
                  var run := TrailingRun(h + MatchedAck(c, e));
                  ClientStep(cfg, c, e).1 == if run > 0 && run % 3 == 0 then c.window.pending else [])
  {
    var c0 := ClientStart(chunks, start);
    var c, h := ClientRun(cfg, c0, es), AckHistory(cfg, c0, es);
    CountsRun(cfg, c0, [], es);
    assert [] + h == h;
    if MatchedAck(c, e) != [] {
      MatchedAckStep(cfg, c, e);
      CountsOneAck(Hearing(c, e), h, e.outcome.p.ackNum);
      hide ClientStep, ClientRun, AckHistory, OnAck;
      TrailingRunMeaning(h + MatchedAck(c, e));
    }
  }
}
