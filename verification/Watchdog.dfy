// The progress watchdog bounds the running time of the client
// (src/utils.c, progress_timeout_reached; the checks in src/client.c).

module Watchdog {
  import opened Wrappers
  import opened Wire
  import opened SenderWindow
  import opened ClientMachine

  // Computation takes no time and wait_for_packet returns no later than its timeout.
  predicate Prompt(c: Client, e: ClientEnv)
  {
    if c.waiting then c.now <= e.t <= c.deadline else e.t == c.now
  }

  predicate PromptRun(cfg: ClientConfig, c: Client, es: seq<ClientEnv>)
    decreases |es|
  {
    es == [] || (Prompt(c, es[0]) && PromptRun(cfg, ClientStep(cfg, c, es[0]).0, es[1..]))
  }

  predicate Active(c: Client)
  {
    c.phase != TimeWait && c.phase != Done
  }

  // How often progress can have been marked: once for SYN+ACK, then once per chunk acknowledged.
  function Stage(isn: U32, chunks: seq<Chunk>, c: Client): int
  {
    match c.phase
    case Closed => 0
    case SynSent => 0
    case Established => 1
    case Transfer => 1 + (c.window.base - isn - 1)
    case _ => 1 + |chunks|
  }

  // Longest time between two marks of progress.
  function Stall(cfg: ClientConfig): nat
    requires cfg.timeout > 0
  {
    1000 * cfg.timeout + RETRANSMIT_INTERVAL_MS
  }

  ghost predicate OnTime(cfg: ClientConfig, chunks: seq<Chunk>, start: nat, c: Client)
    requires Fits(cfg.isn, chunks) && cfg.timeout > 0
  {
    && ClientInv(cfg.isn, chunks, c)
    && (Active(c) ==>
          && 0 < c.lastProgress <= c.now
          && c.lastProgress <= start + Stage(cfg.isn, chunks, c) * Stall(cfg)
          && c.now <= c.lastProgress + Stall(cfg)
          && (c.phase == Transfer ==> c.window.timer <= c.now)
          && (c.waiting ==>
                && c.now < c.lastProgress + 1000 * cfg.timeout
                && c.deadline <= c.now + RETRANSMIT_INTERVAL_MS))
  }

  lemma StageBound(cfg: ClientConfig, start: nat, stage: int, stages: int)
    requires cfg.timeout > 0 && stage <= stages
    ensures start + stage * Stall(cfg) <= start + stages * Stall(cfg)
  {
    var gap := stages - stage;
    assert gap * Stall(cfg) >= 0;
    assert stages * Stall(cfg) == stage * Stall(cfg) + gap * Stall(cfg);
  }

  // A mark of progress moves the stage on by at least one and comes within one stall of the last.
  lemma StageAdvance(cfg: ClientConfig, start: nat, was: int, stage: int, last: nat, now: nat)
    requires cfg.timeout > 0 && was + 1 <= stage
    requires last <= start + was * Stall(cfg) && now <= last + Stall(cfg)
    ensures now <= start + stage * Stall(cfg)
  {
    StageBound(cfg, start, was + 1, stage);
    assert (was + 1) * Stall(cfg) == was * Stall(cfg) + Stall(cfg);
  }

  // A head takes no time; it waits only after the watchdog was found to have time left.
  lemma OnTimeHead(cfg: ClientConfig, chunks: seq<Chunk>, start: nat, c: Client, e: ClientEnv)
    requires Fits(cfg.isn, chunks) && cfg.timeout > 0 && OnTime(cfg, chunks, start, c)
    requires Active(c) && !c.waiting && Prompt(c, e)
    ensures OnTime(cfg, chunks, start, ClientStep(cfg, c, e).0)
    ensures ClientStep(cfg, c, e).0.now == c.now
  {
    hide TransferHead, ChunkRun;
    assert c.(now := e.t) == c;
    ClientHeadKeeps(cfg, chunks, c, e);
    if c.phase == Transfer {
      TransferHeadKeeps(cfg, cfg.isn, chunks, c, e);
      TransferHeadClock(cfg, cfg.isn, chunks, c, e);
      TransferHeadPhases(cfg, c, e);
    }
    var c' := ClientHead(cfg, c, e).0;
    if Active(c') {
      StageBound(cfg, start, Stage(cfg.isn, chunks, c), Stage(cfg.isn, chunks, c'));
    }
  }

  lemma RefillTimer(isn: U32, chunks: seq<Chunk>, c: Client, e: ClientEnv)
    requires Fits(isn, chunks) && SenderInv(isn, chunks, c) && c.window.timer <= c.now
    ensures Refill(c, e).window.timer <= c.now
  {
    WindowConsistent(c.window, isn + 1, chunks, c.ackNum, c.connId);
    hide Fill, ChunkRun;
    FillFacts(c.window, c.file, c.ackNum, c.connId, c.now, e.fault);
  }

  lemma TransferHeadClock(cfg: ClientConfig, isn: U32, chunks: seq<Chunk>, c: Client, e: ClientEnv)
    requires Fits(isn, chunks) && c.phase == Transfer && !c.waiting && ClientInv(isn, chunks, c)
    requires cfg.timeout > 0 && 0 < c.lastProgress <= c.now && c.window.timer <= c.now
    ensures var c' := TransferHead(cfg, c, e).0;
            && c'.now == c.now && c'.lastProgress == c.lastProgress && c'.window.timer <= c.now
            && (c'.waiting ==> c.now < c.lastProgress + 1000 * cfg.timeout && c'.deadline <= c.now + RETRANSMIT_INTERVAL_MS)
  {
    hide Refill, ChunkRun;
    RefillTimer(isn, chunks, c, e);
  }

  // A tail comes within one stall of the last progress; if it marks progress, the stage moves on.
  lemma OnTimeTail(cfg: ClientConfig, chunks: seq<Chunk>, start: nat, c: Client, e: ClientEnv)
    requires Fits(cfg.isn, chunks) && cfg.timeout > 0 && OnTime(cfg, chunks, start, c)
    requires Active(c) && c.waiting && Prompt(c, e)
    ensures OnTime(cfg, chunks, start, ClientStep(cfg, c, e).0)
    ensures ClientStep(cfg, c, e).0.now <= c.lastProgress + Stall(cfg)
  {
    hide ClientTail, ChunkRun;
    var c1 := c.(now := e.t, waiting := false, deadline := 0);
    var c' := ClientTail(cfg, c1, e).0;
    ClientTailKeeps(cfg, chunks, c1, e);
    TailProgress(cfg, chunks, c1, e);
    if c'.lastProgress != c.lastProgress && Active(c') {
      StageAdvance(cfg, start, Stage(cfg.isn, chunks, c), Stage(cfg.isn, chunks, c'), c.lastProgress, e.t);
    }
    if Active(c') {
      StageBound(cfg, start, Stage(cfg.isn, chunks, c), Stage(cfg.isn, chunks, c'));
    }
  }

  // The only marks of progress before TIME_WAIT are SYN+ACK and an ACK that moves base.
  lemma TailProgress(cfg: ClientConfig, chunks: seq<Chunk>, c: Client, e: ClientEnv)
    requires Fits(cfg.isn, chunks) && ClientInv(cfg.isn, chunks, c) && Active(c) && !c.waiting
    ensures var c' := ClientTail(cfg, c, e).0;
            && c'.now == c.now && !c'.waiting
            && (Active(c') ==>
                  && (if c'.lastProgress == c.lastProgress
                      then Stage(cfg.isn, chunks, c') >= Stage(cfg.isn, chunks, c)
                      else c'.lastProgress == c.now && Stage(cfg.isn, chunks, c') > Stage(cfg.isn, chunks, c))
                  && (c'.phase == Transfer ==> c.phase == Transfer && (c'.window.timer <= c.window.timer || c'.window.timer <= c.now)))
  {
    hide ChunkRun;
    if c.phase == Transfer && e.outcome.Recv? {
      OnAckMoves(c.(addr := e.outcome.src), e.outcome.p.ackNum);
    }
  }

  // The converse, for every client step and any clock: the watchdog is refreshed
  // when SYN+ACK or FIN+ACK is accepted, when base moves, when FIN+ACK is
  // answered again in TIME_WAIT, and at no other step.
  lemma ProgressMarks(cfg: ClientConfig, chunks: seq<Chunk>, c: Client, e: ClientEnv)
    requires Fits(cfg.isn, chunks) && ClientInv(cfg.isn, chunks, c)
    ensures var (c', sent) := ClientStep(cfg, c, e);
            var advances := || (c.phase in {SynSent, FinWait} && c'.seqNum != c.seqNum)
                            || (c.phase == Transfer && c'.window.base != c.window.base)
                            || (c.phase == TimeWait && sent != []);
            && c'.lastProgress == (if advances && e.t != 0 then e.t else c.lastProgress)
            && (c.phase == SynSent && c'.phase == Established ==> advances)
            && (c.phase == FinWait && c'.phase == TimeWait ==> advances)
  {
    hide ChunkRun, TransferHead, OnAck;
    if c.phase == Transfer {
      if !c.waiting {
        TransferHeadKeeps(cfg, cfg.isn, chunks, c.(now := e.t), e);
        TransferHeadClockwork(cfg, c.(now := e.t), e);
      } else if e.outcome.Recv? {
        OnAckMoves(c.(now := e.t, waiting := false, deadline := 0, addr := e.outcome.src), e.outcome.p.ackNum);
      }
    }
  }

  // The watchdog, on 64-bit readings: off without a setting or a valid reading,
  // and otherwise out exactly when the difference of the readings reaches it.
  lemma WatchdogRule(lastProgress: nat, now: nat, timeout: int)
    requires lastProgress < 0x1_0000_0000_0000_0000 && now < 0x1_0000_0000_0000_0000
    ensures Expired(lastProgress, now, timeout) <==>
              && timeout > 0 && lastProgress != 0 && now != 0
              && (now - lastProgress) % 0x1_0000_0000_0000_0000 >= 1000 * timeout
  {
    if now < lastProgress {
      assert (now - lastProgress) % 0x1_0000_0000_0000_0000 == now - lastProgress + 0x1_0000_0000_0000_0000;
    }
  }

  // The retransmission timer, on 64-bit readings, failed ones included: it is
  // started if it is off, and the window is resent exactly when 250 ms have
  // passed on it; otherwise the wait lasts for the rest of them.
  lemma TimerRule(c: Client)
    requires c.window.base < c.window.next
    requires c.now < 0x1_0000_0000_0000_0000 && c.window.timer < 0x1_0000_0000_0000_0000
    ensures var (c', sent) := TimerCheck(c);
            var started := if c.window.timer == 0 then c.now else c.window.timer;
            var elapsed := (c.now - started) % 0x1_0000_0000_0000_0000;
            if elapsed >= 250 then sent == c.window.pending && c' == c.(window := c.window.(timer := c.now))
            else sent == [] && c' == c.(window := c.window.(timer := started), waiting := true, deadline := c.now + 250 - elapsed)
  {
    var started := if c.window.timer == 0 then c.now else c.window.timer;
    if c.now < started {
      assert (c.now - started) % 0x1_0000_0000_0000_0000 == c.now - started + 0x1_0000_0000_0000_0000;
    }
  }

  lemma {:induction false} OnTimeRun(cfg: ClientConfig, chunks: seq<Chunk>, start: nat, c: Client, es: seq<ClientEnv>)
    requires Fits(cfg.isn, chunks) && cfg.timeout > 0 && OnTime(cfg, chunks, start, c) && PromptRun(cfg, c, es)
    ensures OnTime(cfg, chunks, start, ClientRun(cfg, c, es))
    decreases |es|
  {
    if es != [] {
      OnTimeStep(cfg, chunks, start, c, es[0]);
      OnTimeRun(cfg, chunks, start, ClientStep(cfg, c, es[0]).0, es[1..]);
    }
  }

  lemma OnTimeStep(cfg: ClientConfig, chunks: seq<Chunk>, start: nat, c: Client, e: ClientEnv)
    requires Fits(cfg.isn, chunks) && cfg.timeout > 0 && OnTime(cfg, chunks, start, c) && Prompt(c, e)
    ensures OnTime(cfg, chunks, start, ClientStep(cfg, c, e).0)
  {
    if !Active(c) {
      ClientStepKeeps(cfg, chunks, c, e);
    } else if c.waiting {
      OnTimeTail(cfg, chunks, start, c, e);
    } else {
      OnTimeHead(cfg, chunks, start, c, e);
    }
  }

  // Sending N chunks under a watchdog of T seconds, a client that has not yet
  // reached TIME_WAIT or DONE is at most (N + 2) * (1000 T + 250) ms old, and so
  // is the instant at which it gets there, whatever arrives or does not.
  lemma ClientTimeBound(cfg: ClientConfig, chunks: seq<Chunk>, start: nat, es: seq<ClientEnv>, e: ClientEnv)
    requires Fits(cfg.isn, chunks) && cfg.timeout > 0 && start > 0
    requires PromptRun(cfg, ClientStart(chunks, start), es)
    requires Prompt(ClientRun(cfg, ClientStart(chunks, start), es), e)
    requires Active(ClientRun(cfg, ClientStart(chunks, start), es))
    ensures var c := ClientRun(cfg, ClientStart(chunks, start), es);
            var limit := start + (|chunks| + 2) * (1000 * cfg.timeout + RETRANSMIT_INTERVAL_MS);
            c.now <= limit && ClientStep(cfg, c, e).0.now <= limit
  {
    var c := ClientRun(cfg, ClientStart(chunks, start), es);
    OnTimeRun(cfg, chunks, start, ClientStart(chunks, start), es);
    if c.waiting { OnTimeTail(cfg, chunks, start, c, e); } else { OnTimeHead(cfg, chunks, start, c, e); }
    var stage := Stage(cfg.isn, chunks, c);
    StageAdvance(cfg, start, stage, |chunks| + 2, c.lastProgress, c.lastProgress + Stall(cfg));
  }
}
