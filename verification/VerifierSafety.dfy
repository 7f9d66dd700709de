/** Safety of the verifier over every run: all interleavings of the main loop, backfills, workers, timers
    and cancellation, and all RPC answers. */
module VerifierSafety {
  import opened Options
  import opened Uint64
  import opened HeaderStream
  import opened Backfill
  import opened Sums
  import opened Verifier
  import opened VerifierFlow
  import opened VerifierLaws

  // ----- published counters as a function of the recorded outcomes

  /** The counters after recording the outcomes in order. */
  ghost function Replay(h: seq<Outcome>): Counters
  {
    if h == [] then ZeroCounters() else OnVerified(Replay(h[..|h| - 1]), h[|h| - 1])
  }

  /** The last outcome recorded for type b at `height` was a failure. */
  ghost predicate LastFailed(h: seq<Outcome>, b: BlobType, height: int)
  {
    exists i :: 0 <= i < |h| && About(h[i], b, height) && !h[i].verified
                && forall k :: i < k < |h| ==> !About(h[k], b, height)
  }

  lemma LastFailedAt(h: seq<Outcome>, b: BlobType, height: int)
    ensures var i := LastAt(h, b, height); LastFailed(h, b, height) <==> i >= 0 && !h[i].verified
  {
    hide LastAt;
  }

  lemma LastFailedGrows(init: seq<Outcome>, o: Outcome, b: BlobType, height: int)
    ensures LastFailed(init + [o], b, height) <==>
            if About(o, b, height) then !o.verified else LastFailed(init, b, height)
  {
    hide About;
    var h := init + [o];
    assert h[|init|] == o && forall i :: 0 <= i < |init| ==> h[i] == init[i];
    if LastFailed(init, b, height) && !About(o, b, height) {
      var i :| 0 <= i < |init| && About(init[i], b, height) && !init[i].verified
               && forall k :: i < k < |init| ==> !About(init[k], b, height);
      assert About(h[i], b, height);
    }
  }

  /** The missing set of a type is the set of heights whose last recorded outcome for it was a failure. */
  lemma {:induction false} MissingIsLastFailure(h: seq<Outcome>, b: BlobType, height: int)
    ensures height in Replay(h).missing.At(b) <==> LastFailed(h, b, height)
  {
    if h == [] {
    } else {
      hide LastFailed;
      var init, o := h[..|h| - 1], h[|h| - 1];
      MissingIsLastFailure(init, b, height);
      LastFailedGrows(init, o, b, height);
      assert h == init + [o];
    }
  }

  /** Attempt and failure counters count outcomes. */
  lemma {:induction false} CountersCountOutcomes(h: seq<Outcome>, b: BlobType)
    ensures Replay(h).attempts.At(b) == SumBy(h, OutcomeValue(Attempts(b)))
    ensures Replay(h).failures.At(b) == SumBy(h, OutcomeValue(Failures(b)))
  {
    if h == [] {
    } else {
      CountersCountOutcomes(h[..|h| - 1], b);
    }
  }

  /** A height at which a blob of type b was verified. */
  ghost predicate VerifiedAt(h: seq<Outcome>, b: BlobType, daHeight: nat)
  {
    exists i :: 0 <= i < |h| && h[i].blob == b && h[i].verified && h[i].daHeight == daHeight
  }

  /** The DA height gauge is the highest DA height of any verified outcome, and 0 before the first. */
  lemma {:induction false} LatestIsHighest(h: seq<Outcome>, b: BlobType)
    ensures forall i :: 0 <= i < |h| && h[i].blob == b && h[i].verified ==>
              h[i].daHeight <= Replay(h).latestDaHeight.At(b)
    ensures Replay(h).latestDaHeight.At(b) > 0 ==> VerifiedAt(h, b, Replay(h).latestDaHeight.At(b))
  {
    if h == [] {
    } else {
      var init, o := h[..|h| - 1], h[|h| - 1];
      LatestIsHighest(init, b);
      var before := Replay(init).latestDaHeight.At(b);
      if o.blob == b && o.verified && o.daHeight > before {
        assert h[|h| - 1] == o;
      } else if before > 0 {
        var i :| 0 <= i < |init| && init[i].blob == b && init[i].verified && init[i].daHeight == before;
        assert h[i] == init[i];
      }
    }
  }

  // ----- backfill tasks

  /** A task's gap is dropped, enqueued, skipped, waiting or not yet reached. */
  ghost predicate TaskLedger(t: Task)
  {
    var size := t.gap.to - t.gap.from + 1;
    && t.gap.from <= t.gap.to < LIMIT - 1
    && (!t.begun ==> |t.enqueued| == |t.skipped| == t.dropped == 0 && t.pending.None?)
    && (t.begun ==> t.dropped == Dropped(t.gap) && t.next <= t.gap.to + 1
                    && t.dropped + |t.enqueued| + |t.skipped| + (t.gap.to - t.next + 1) == size)
    && (t.pending.Some? ==> t.begun && t.next <= t.gap.to)
  }

  ghost function Gaps(ts: seq<Task>): (gs: seq<Interval>)
    ensures |gs| == |ts|
    ensures forall k :: 0 <= k < |ts| ==> gs[k] == ts[k].gap
  {
    seq(|ts|, k requires 0 <= k < |ts| => ts[k].gap)
  }

  /** The main loop's height bookkeeping and its backfills agree with the stream of received heights. */
  ghost predicate StreamFollowed(s: State)
  {
    && s.lastHeight == Last(s.log.received)
    && Gaps(s.tasks) == Intervals(s.log.received)
    && forall k :: 0 <= k < |s.tasks| ==> TaskLedger(s.tasks[k])
  }

  lemma WindowSplitsGap(b: Interval)
    requires b.from <= b.to < LIMIT - 1
    ensures b.from <= WindowStart(b) <= b.to
    ensures Dropped(b) + (b.to - WindowStart(b) + 1) == b.to - b.from + 1
  {
  }

  lemma TaskKept(t: Task, step: Step, lineage: nat)
    requires IsTaskStep(step) && TaskLedger(t)
    requires step.TaskBegin? ==> !t.begun
    requires step.TaskFetch? ==> t.begun && t.next <= t.gap.to && t.pending.None?
    requires step.TaskEnqueue? ==> t.pending.Some?
    ensures TaskLedger(TaskMove(t, step, lineage)) && TaskMove(t, step, lineage).gap == t.gap
  {
    hide WindowStart, Dropped, GapSize;
    WindowSplitsGap(t.gap);
  }

  lemma TaskFacts(t: Task)
    requires TaskLedger(t)
    ensures t.pending.Some? ==> t.begun
    ensures !t.begun ==> t.dropped == 0
  {
  }

  lemma ReceiveKept(s: State, header: Header)
    requires Enabled(s, Receive(header)) && StreamFollowed(s)
    ensures StreamFollowed(MainStep(s, Receive(header)))
  {
    hide Dropped, WindowStart, GapSize;
    var s' := MainStep(s, Receive(header));
    var r := s'.log.received;
    assert r[..|r| - 1] == s.log.received;
    assert Gaps(s'.tasks) == Intervals(r);
  }

  lemma StreamKept(s: State, step: Step)
    requires Enabled(s, step) && StreamFollowed(s)
    ensures StreamFollowed(After(s, step))
  {
    hide TaskMove, VerifyStep, TaskLedger, Dropped;
    var s' := After(s, step);
    if IsTaskStep(step) {
      TaskFacts(s.tasks[step.k]);
      TaskKept(s.tasks[step.k], step, s.log.nextLineage);
      assert Gaps(s'.tasks) == Gaps(s.tasks);
    } else if step.Receive? {
      ReceiveKept(s, step.header);
    }
  }

  ghost function EnqueuedValue(): Task -> nat { (t: Task) => |t.enqueued| }

  ghost function DroppedValue(): Task -> nat { (t: Task) => t.dropped }

  /** The backfill counters are the sums over all backfills. */
  ghost predicate BackfillTotals(s: State)
  {
    && s.log.counters.backfilled == SumBy(s.tasks, EnqueuedValue())
    && s.log.counters.dropped == SumBy(s.tasks, DroppedValue())
  }

  lemma ReceiveTotals(s: State, header: Header)
    requires Enabled(s, Receive(header)) && BackfillTotals(s)
    ensures BackfillTotals(MainStep(s, Receive(header)))
  {
    hide GapBelow;
    var s' := MainStep(s, Receive(header));
    if OpensGap(s.lastHeight, header.height) {
      SumAppend(s.tasks, s'.tasks[|s.tasks|], EnqueuedValue());
      SumAppend(s.tasks, s'.tasks[|s.tasks|], DroppedValue());
    } else {
      assert s'.tasks == s.tasks;
    }
  }

  lemma OtherwiseUntouched(s: State, step: Step)
    requires Enabled(s, step) && !IsTaskStep(step) && !step.Receive?
    ensures After(s, step).tasks == s.tasks
    ensures After(s, step).log.counters.backfilled == s.log.counters.backfilled
    ensures After(s, step).log.counters.dropped == s.log.counters.dropped
  {
    hide VerifyStep;
  }

  lemma TotalsUpdate(s: State, k: nat, t: Task)
    requires k < |s.tasks|
    ensures SumBy(s.tasks[k := t], EnqueuedValue()) + |s.tasks[k].enqueued|
         == SumBy(s.tasks, EnqueuedValue()) + |t.enqueued|
    ensures SumBy(s.tasks[k := t], DroppedValue()) + s.tasks[k].dropped == SumBy(s.tasks, DroppedValue()) + t.dropped
  {
    SumUpdate(s.tasks, k, t, EnqueuedValue());
    SumUpdate(s.tasks, k, t, DroppedValue());
  }

  lemma BackfillTotalsKept(s: State, step: Step)
    requires Enabled(s, step) && StreamFollowed(s) && BackfillTotals(s)
    ensures BackfillTotals(After(s, step))
  {
    if IsTaskStep(step) {
      hide Gaps, Intervals, Last, TaskLedger, WindowStart, Dropped;
      TaskFacts(s.tasks[step.k]);
      TotalsUpdate(s, step.k, After(s, step).tasks[step.k]);
    } else if step.Receive? {
      ReceiveTotals(s, step.header);
    } else {
      OtherwiseUntouched(s, step);
    }
  }

  // ----- every reachable state

  /** Counters that outcomes alone determine. */
  ghost function Reported(c: Counters): Counters { c.(inflight := 0, backfilled := 0, dropped := 0) }

  ghost predicate Shape(s: State, cfg: Config)
  {
    && s.cfg == cfg && |s.workers| == cfg.workers && |s.queue| <= 2 * cfg.workers
    && (s.log.lost != [] ==> s.cancelled)
    && Reported(s.log.counters) == Replay(s.log.history)
  }

  ghost predicate Invariant(s: State, cfg: Config)
  {
    && Shape(s, cfg)
    && AllWellFormed(s)
    && InFlightLedger(s)
    && (forall l :: LineageLedger(s, l))
    && (forall b :: AttemptLedger(s, b))
    && (forall b, l, r :: RoundLedger(s, b, l, r))
    && (forall b, h :: MissingOwed(s, b, h))
    && StreamFollowed(s)
    && BackfillTotals(s)
  }

  lemma ReportedKept(log: Log, log': Log, e: Effect)
    requires Reported(log.counters) == Replay(log.history)
    requires log'.history == log.history + Optional(e.outcome)
    requires Reported(log'.counters) ==
             Reported(if e.outcome.Some? then OnVerified(log.counters, e.outcome.value) else log.counters)
    ensures Reported(log'.counters) == Replay(log'.history)
  {
    if e.outcome.Some? {
      assert log'.history[..|log'.history| - 1] == log.history;
    } else {
      assert log'.history == log.history;
    }
  }

  lemma ShapeKept(s: State, step: Step, cfg: Config)
    requires Enabled(s, step) && Shape(s, cfg)
    ensures Shape(After(s, step), cfg)
  {
    hide VerifyStep, TaskMove, OnVerified;
    LogChange(s, step);
    ReportedKept(s.log, After(s, step).log, EffectOf(s, step));
  }

  lemma InvariantKept(s: State, step: Step, cfg: Config)
    requires Enabled(s, step) && Invariant(s, cfg)
    ensures Invariant(After(s, step), cfg)
  {
    hide Shape, AllWellFormed, InFlightLedger, LineageLedger, AttemptLedger, RoundLedger, MissingOwed,
         StreamFollowed, BackfillTotals, After, Enabled;
    ShapeKept(s, step, cfg);
    WellFormedKept(s, step);
    InFlightKept(s, step);
    StreamKept(s, step);
    BackfillTotalsKept(s, step);
    forall l ensures LineageLedger(After(s, step), l) { LineageKept(s, step, l); }
    forall b ensures AttemptLedger(After(s, step), b) { AttemptKept(s, step, b); }
    forall b, l, r ensures RoundLedger(After(s, step), b, l, r) { RoundKept(s, step, b, l, r); }
    forall b, h ensures MissingOwed(After(s, step), b, h) { MissingKept(s, step, b, h); }
  }

  lemma {:induction false} IdleWeighsNothing(ws: seq<Worker>, y: Tally)
    requires forall i :: 0 <= i < |ws| ==> ws[i].Idle?
    ensures SumBy(ws, WorkerValue(y)) == 0
  {
    if ws == [] {
    } else {
      IdleWeighsNothing(ws[..|ws| - 1], y);
    }
  }

  lemma InvariantAtStart(cfg: Config)
    ensures Invariant(Init(cfg), cfg)
  {
    hide Count;
    forall y: Tally ensures Weight(Init(cfg), y) == 0 { IdleWeighsNothing(Init(cfg).workers, y); }
  }

  lemma {:induction false} InvariantHolds(cfg: Config, steps: seq<Step>)
    requires ValidRun(Init(cfg), steps)
    ensures Invariant(Run(Init(cfg), steps), cfg)
  {
    hide Invariant, After, Enabled, Init;
    if steps == [] {
      InvariantAtStart(cfg);
    } else {
      InvariantHolds(cfg, steps[..|steps| - 1]);
      InvariantKept(Run(Init(cfg), steps[..|steps| - 1]), steps[|steps| - 1], cfg);
    }
  }

  /** A missing block has its owner: the job that recorded the last failure. */
  lemma MissingHasOwner(s: State, cfg: Config, b: BlobType, h: int) returns (t: Token, i: nat)
    requires Invariant(s, cfg) && h in s.log.counters.missing.At(b)
    ensures i < |s.log.history| && About(s.log.history[i], b, h) && !s.log.history[i].verified
    ensures forall k :: i < k < |s.log.history| ==> !About(s.log.history[k], b, h)
    ensures At(s, t) && PastFailure(t, s.log.history[i])
  {
    hide Weight, LastAt, LastFailed, Replay;
    assert s.log.counters.missing == Reported(s.log.counters).missing;
    MissingIsLastFailure(s.log.history, b, h);
    LastFailedAt(s.log.history, b, h);
    i := LastAt(s.log.history, b, h);
    assert MissingOwed(s, b, h);
    t := Found(s, Owing(s.log.history[i]));
  }
}
