/** The verifier's guarantees in every reachable state. */
module VerifierTheorems {
  import opened Options
  import opened Uint64
  import opened HeaderStream
  import opened Backfill
  import opened Sums
  import opened Verifier
  import opened VerifierFlow
  import opened VerifierLaws
  import opened VerifierSafety

  lemma ReachableInvariant(cfg: Config, s: State)
    requires Reachable(cfg, s)
    ensures Invariant(s, cfg)
  {
    hide Invariant, After, Enabled, Init;
    var steps :| ValidRun(Init(cfg), steps) && s == Run(Init(cfg), steps);
    InvariantHolds(cfg, steps);
  }

  // ----- missing blocks

  /** No missing block is forgotten: the very job that recorded the last failure of that blob is past the
      record and still has to verify it, and until cancellation it is in the queue, in a timer or with a
      worker. Other jobs of the same height do not stand in for it. */
  lemma NoMissingBlockForgotten(cfg: Config, s: State, b: BlobType, h: int) returns (t: Token, i: nat)
    requires Reachable(cfg, s) && h in s.log.counters.missing.At(b)
    ensures i < |s.log.history| && About(s.log.history[i], b, h) && !s.log.history[i].verified
    ensures forall k :: i < k < |s.log.history| ==> !About(s.log.history[k], b, h)
    ensures At(s, t) && PastFailure(t, s.log.history[i])
    ensures !s.cancelled ==> t.stage.InQueue? || t.stage.InTimer? || t.stage.InWorker?
  {
    hide After, Enabled, Init, Weight, Replay;
    ReachableInvariant(cfg, s);
    t, i := MissingHasOwner(s, cfg, b, h);
    Counted(s, t, Malformed(cfg));
  }

  /** So once no job is left, nothing is missing. */
  lemma NothingLeftNothingMissing(cfg: Config, s: State, b: BlobType)
    requires Reachable(cfg, s) && !s.cancelled
    requires forall t: Token :: !t.stage.GivenUp? ==> !At(s, t)
    ensures s.log.counters.missing.At(b) == {}
  {
    hide After, Enabled, Init, At;
    forall h
      ensures h !in s.log.counters.missing.At(b)
    {
      if h in s.log.counters.missing.At(b) {
        var t, i := NoMissingBlockForgotten(cfg, s, b, h);
      }
    }
  }

  /** Over any run the missing set is the set of heights whose last recorded outcome was a failure. */
  lemma MissingMatchesHistory(cfg: Config, s: State, b: BlobType, h: int)
    requires Reachable(cfg, s)
    ensures h in s.log.counters.missing.At(b) <==> LastFailed(s.log.history, b, h)
  {
    hide After, Enabled, Init;
    ReachableInvariant(cfg, s);
    MissingIsLastFailure(s.log.history, b, h);
    assert s.log.counters.missing == Reported(s.log.counters).missing;
  }

  // ----- conservation

  /** Every lineage ever started is in exactly one place (main loop, backfill, queue, worker, timer, or
      given up after cancellation) or finished as verified; the queue keeps its bound; the in-flight
      gauge is the number of jobs whose start is set. */
  lemma JobConservation(cfg: Config, s: State, l: nat)
    requires Reachable(cfg, s)
    ensures Weight(s, OfLineage(l)) + Rounds(s.log, VerifiedFrom(l, 0)) == (if l < s.log.nextLineage then 1 else 0)
    ensures |s.queue| <= 2 * cfg.workers
    ensures s.log.counters.inflight == Weight(s, InFlight)
    ensures s.log.lost != [] ==> s.cancelled
  {
    hide After, Enabled, Init, Weight, Count, Rounds;
    ReachableInvariant(cfg, s);
    assert LineageLedger(s, l);
  }

  /** Two jobs of one lineage are one job in one place. */
  lemma OnePlacePerLineage(cfg: Config, s: State, t: Token, u: Token)
    requires Reachable(cfg, s) && At(s, t) && At(s, u) && t.job.lineage == u.job.lineage
    ensures t == u
  {
    hide After, Enabled, Init, Weight, At, Rounds;
    var l := t.job.lineage;
    JobConservation(cfg, s, l);
    if t != u {
      Counted(s, t, Exactly(t));
      Counted(s, u, Exactly(u));
      WeightBelow(s, Exactly(t), Exactly(u), OfLineage(l));
    }
  }

  // ----- exactly-once accounting

  /** The attempts counter of a type counts the completed rounds that require it and the unfinished ones
      that have recorded it; failures counts failed outcomes. */
  lemma AttemptAccounting(cfg: Config, s: State, b: BlobType)
    requires Reachable(cfg, s)
    ensures s.log.counters.attempts.At(b) == Rounds(s.log, Requiring(b)) + Weight(s, Recorded(b))
    ensures s.log.counters.failures.At(b) == Outcomes(s.log, Failures(b))
  {
    hide After, Enabled, Init, Weight, Count, Rounds;
    ReachableInvariant(cfg, s);
    assert AttemptLedger(s, b);
    CountersCountOutcomes(s.log.history, b);
    assert s.log.counters.attempts == Reported(s.log.counters).attempts;
    assert s.log.counters.failures == Reported(s.log.counters).failures;
  }

  lemma RoundsBelow(log: Log, x: RoundTally, y: RoundTally, z: RoundTally)
    requires forall r :: CountRound(x, r) + CountRound(y, r) <= CountRound(z, r)
    ensures Rounds(log, x) + Rounds(log, y) <= Rounds(log, z)
  {
    hide CountRound;
    SumBelow(log.rounds, RoundValue(x), RoundValue(y), RoundValue(z));
  }

  lemma RoundCounted(log: Log, k: nat, q: RoundTally)
    requires k < |log.rounds|
    ensures CountRound(q, log.rounds[k]) <= Rounds(log, q)
  {
    hide CountRound;
    SumTerm(log.rounds, k, RoundValue(q));
  }

  /** A completed round of a lineage is completed once, and no job of that lineage is still in it. */
  lemma RoundOver(cfg: Config, s: State, k: nat)
    requires Reachable(cfg, s) && k < |s.log.rounds|
    ensures Rounds(s.log, Ended(s.log.rounds[k].lineage, s.log.rounds[k].round)) == 1
    ensures Weight(s, AtRound(s.log.rounds[k].lineage, s.log.rounds[k].round)) == 0
  {
    hide After, Enabled, Init, Weight, Rounds;
    var l, n := s.log.rounds[k].lineage, s.log.rounds[k].round;
    ReachableInvariant(cfg, s);
    assert LineageLedger(s, l) && RoundLedger(s, HeaderBlob, l, n);
    RoundCounted(s.log, k, Ended(l, n));
    WeightBelow(s, AtRound(l, n), PastRound(l, n), OfLineage(l));
    RoundsBelow(s.log, VerifiedFrom(l, n), Nothing, VerifiedFrom(l, 0));
  }

  /** A completed round has recorded exactly one outcome for each blob its block has, and none for a
      blob it does not have. */
  lemma ExactlyOncePerRound(cfg: Config, s: State, k: nat, b: BlobType)
    requires Reachable(cfg, s) && k < |s.log.rounds|
    ensures Outcomes(s.log, InRound(b, s.log.rounds[k].lineage, s.log.rounds[k].round))
         == if b.HeaderBlob? || s.log.rounds[k].header.hasTransactions then 1 else 0
  {
    hide After, Enabled, Init, Weight, Rounds;
    var l, n := s.log.rounds[k].lineage, s.log.rounds[k].round;
    ReachableInvariant(cfg, s);
    RoundOver(cfg, s, k);
    assert RoundLedger(s, b, l, n);
    WeightBelow(s, RecordedIn(b, l, n), Nobody, AtRound(l, n));
    RoundCounted(s.log, k, RequiringIn(b, l, n));
    RoundCounted(s.log, k, SparingIn(b, l, n));
    RoundsBelow(s.log, RequiringIn(b, l, n), SparingIn(b, l, n), Ended(l, n));
  }

  /** An unfinished round has recorded one outcome for each blob it is through with, and none for the others. */
  lemma AtMostOnceSoFar(cfg: Config, s: State, t: Token, b: BlobType)
    requires Reachable(cfg, s) && At(s, t)
    ensures Outcomes(s.log, InRound(b, t.job.lineage, t.job.round)) == if HasRecorded(t, b) then 1 else 0
  {
    hide After, Enabled, Init, Weight, Rounds, At;
    var l, n := t.job.lineage, t.job.round;
    ReachableInvariant(cfg, s);
    assert LineageLedger(s, l) && RoundLedger(s, b, l, n);
    Counted(s, t, AtRound(l, n));
    Counted(s, t, RecordedIn(b, l, n));
    Counted(s, t, Exactly(t));
    WeightBelow(s, AtRound(l, n), PastRound(l, n), OfLineage(l));
    WeightBelow(s, RecordedIn(b, l, n), Nobody, AtRound(l, n));
    if !HasRecorded(t, b) { WeightBelow(s, RecordedIn(b, l, n), Exactly(t), OfLineage(l)); }
    RoundsBelow(s.log, VerifiedFrom(l, n), Nothing, VerifiedFrom(l, 0));
    RoundsBelow(s.log, RequiringIn(b, l, n), Nothing, Ended(l, n));
  }

  // ----- rounds

  /** Every job is well formed wherever it is: a round begins at most max(1, number of intervals) attempts,
      a waiting retry still has a required blob unverified and waits for its own interval, and a fresh
      job in a timer waits for the cooldown. */
  lemma RoundBounds(cfg: Config, s: State, t: Token)
    requires Reachable(cfg, s) && At(s, t)
    ensures WellFormed(t, cfg)
    ensures t.job.tries <= MaxTries(cfg)
    ensures t.stage.InTimer? ==>
              && (Owes(t, HeaderBlob) || Owes(t, DataBlob))
              && (if t.job.attempt > 0
                  then t.job.attempt < |cfg.retryIntervals| && t.stage.delay == cfg.retryIntervals[t.job.attempt]
                  else t.job == NewJob(t.job.header, t.job.lineage, t.job.round) && t.stage.delay == cfg.cooldown)
  {
    hide After, Enabled, Init, Weight, At;
    ReachableInvariant(cfg, s);
    Counted(s, t, Malformed(cfg));
  }

  /** The job went on: to a later round, or within its round without losing an attempt or a verified blob. */
  ghost predicate Advances(j: Job, k: Job)
  {
    && k.lineage == j.lineage && k.header == j.header
    && (j.round < k.round
        || (j.round == k.round && j.attempt <= k.attempt && j.tries <= k.tries
            && (j.headerDone ==> k.headerDone) && (j.dataDone ==> k.dataDone)))
  }

  lemma StretchAdvances(cfg: Config, j: Job, phase: Phase, fetch: FetchReply, part: PartReply)
    ensures var put := PutBy(VerifyStep(cfg, j, phase, fetch, part));
            put.Some? ==> Advances(j, put.value.job)
  {
  }

  /** A job found after a step is a new one, or was there before the step and went on. */
  lemma TracedBack(s: State, step: Step, after: Token) returns (before: Token)
    requires Enabled(s, step) && At(After(s, step), after)
    ensures after.job.lineage != s.log.nextLineage ==> At(s, before) && Advances(before.job, after.job)
  {
    hide After, VerifyStep, Weight, At;
    Counted(After(s, step), after, Exactly(after));
    Flow(s, step, Exactly(after));
    before := after;
    if Weight(s, Exactly(after)) > 0 {
      before := Found(s, Exactly(after));
    } else if Taken(s, step).Some? {
      TakenWithin(s, step, Exactly(Taken(s, step).value));
      before := Found(s, Exactly(Taken(s, step).value));
      if step.Work? {
        StretchAdvances(s.cfg, s.workers[step.w].job, s.workers[step.w].phase, step.fetch, step.part);
      } else {
        Moves(s, step);
      }
    } else {
      Moves(s, step);
    }
  }

  lemma {:induction false} LineagesGrow(s: State, run: seq<Step>)
    requires ValidRun(s, run)
    ensures s.log.nextLineage <= Run(s, run).log.nextLineage
  {
    hide After, Enabled;
    if run == [] {
    } else {
      LineagesGrow(s, run[..|run| - 1]);
      LogChange(Run(s, run[..|run| - 1]), run[|run| - 1]);
    }
  }

  lemma {:induction false} TracedThroughRun(s: State, run: seq<Step>, after: Token) returns (before: Token)
    requires ValidRun(s, run) && At(Run(s, run), after) && after.job.lineage < s.log.nextLineage
    ensures At(s, before) && Advances(before.job, after.job)
  {
    hide After, Enabled, At;
    if run == [] {
      before := after;
    } else {
      var init, step := run[..|run| - 1], run[|run| - 1];
      LineagesGrow(s, init);
      var between := TracedBack(Run(s, init), step, after);
      before := TracedThroughRun(s, init, between);
    }
  }

  lemma TracedIsSame(j: Job, k: Job)
    requires Advances(j, k)
    ensures j.lineage == k.lineage
  {
  }

  /** Over any run from any reachable state: a job found again, wherever it was and wherever it is now, is in
      a later round, or in the same round with no attempt lost and no verified blob unverified. */
  lemma RoundOnlyAdvances(cfg: Config, s: State, end: State, before: Token, after: Token)
    requires Reachable(cfg, s) && LeadsTo(s, end)
    requires At(s, before) && At(end, after) && before.job.lineage == after.job.lineage
    ensures Advances(before.job, after.job)
  {
    hide Reachable, After, Enabled, Weight, At, Rounds, ValidRun, Run, Advances;
    var run :| ValidRun(s, run) && end == Run(s, run);
    Counted(s, before, OfLineage(before.job.lineage));
    JobConservation(cfg, s, before.job.lineage);
    var traced := TracedThroughRun(s, run, after);
    TracedIsSame(traced.job, after.job);
    OnePlacePerLineage(cfg, s, before, traced);
  }

  // ----- gaps and backfills

  /** The backfills started are those the stream of received heights calls for, and each accounts for every
      height of its gap: dropped, enqueued, skipped, or still ahead. */
  lemma BackfillAccounting(cfg: Config, s: State, k: nat)
    requires Reachable(cfg, s)
    ensures s.lastHeight == Last(s.log.received)
    ensures |s.tasks| == |Intervals(s.log.received)|
    ensures k < |s.tasks| ==>
              && s.tasks[k].gap == Intervals(s.log.received)[k]
              && (s.tasks[k].begun ==>
                    s.tasks[k].dropped + |s.tasks[k].enqueued| + |s.tasks[k].skipped|
                    + (s.tasks[k].gap.to - s.tasks[k].next + 1)
                    == s.tasks[k].gap.to - s.tasks[k].gap.from + 1)
    ensures s.log.counters.backfilled == SumBy(s.tasks, EnqueuedValue())
    ensures s.log.counters.dropped == SumBy(s.tasks, DroppedValue())
  {
    hide After, Enabled, Init, Last, Intervals;
    ReachableInvariant(cfg, s);
  }

  // ----- the queue

  /** The job a step sends to the queue: from the main loop, a backfill or a timer. */
  ghost function SentBy(s: State, step: Step): seq<Job>
    requires Enabled(s, step)
  {
    match step
    case MainEnqueue => [s.main.job]
    case TaskEnqueue(k) => [s.tasks[k].pending.value]
    case TimerFire(i) => [s.timers[i].job]
    case _ => []
  }

  /** The job a worker has in hand after taking one. */
  ghost function TakenBy(s: State, step: Step): seq<Job>
    requires Enabled(s, step)
  {
    if step.Dequeue? then [After(s, step).workers[step.w].job] else []
  }

  ghost function SentIn(s: State, run: seq<Step>): seq<Job>
    requires ValidRun(s, run)
  {
    if run == [] then []
    else SentIn(s, run[..|run| - 1]) + SentBy(Run(s, run[..|run| - 1]), run[|run| - 1])
  }

  ghost function TakenIn(s: State, run: seq<Step>): seq<Job>
    requires ValidRun(s, run)
  {
    if run == [] then []
    else TakenIn(s, run[..|run| - 1]) + TakenBy(Run(s, run[..|run| - 1]), run[|run| - 1])
  }

  lemma QueueMoves(s: State, step: Step)
    requires Enabled(s, step)
    ensures s.queue + SentBy(s, step) == TakenBy(s, step) + After(s, step).queue
  {
    hide VerifyStep, Publish, TaskLog, TaskMove;
    if step.Dequeue? {
      assert s.queue == [s.queue[0]] + s.queue[1..];
    }
  }

  /** First in, first out: over any run the jobs sent are those taken, in that order, and then those queued. */
  lemma {:induction false} QueueIsFifo(cfg: Config, run: seq<Step>)
    requires ValidRun(Init(cfg), run)
    ensures SentIn(Init(cfg), run) == TakenIn(Init(cfg), run) + Run(Init(cfg), run).queue
  {
    hide After, Enabled, SentBy, TakenBy;
    if run == [] {
    } else {
      hide Init;
      var was, step := Run(Init(cfg), run[..|run| - 1]), run[|run| - 1];
      QueueIsFifo(cfg, run[..|run| - 1]);
      QueueMoves(was, step);
      var taken := TakenIn(Init(cfg), run[..|run| - 1]);
      assert taken + was.queue + SentBy(was, step) == taken + (was.queue + SentBy(was, step));
      var now := After(was, step).queue;
      assert taken + TakenBy(was, step) + now == taken + (TakenBy(was, step) + now);
    }
  }
}
