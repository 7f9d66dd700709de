/** Progress of the verifier: it never gets stuck while a job is live, and once the node and the DA layer
    answer favourably, every run drains. */
module VerifierProgress {
  import opened Options
  import opened Uint64
  import opened HeaderStream
  import opened Backfill
  import opened Sums
  import opened Verifier
  import opened VerifierFlow
  import opened VerifierLaws
  import opened VerifierSafety
  import opened VerifierTheorems

  /** Steps the exporter makes by itself: no new header, no subscription change, no cancellation. */
  ghost predicate Internal(step: Step)
  {
    !step.Receive? && !step.SubscriptionLost? && !step.SubscriptionRestored? && !step.Cancel?
  }

  /** A job is live or a backfill still has heights to go through. */
  ghost predicate HasWork(s: State)
  {
    Weight(s, Live) > 0 || exists k :: 0 <= k < |s.tasks| && TaskRunning(s.tasks[k])
  }

  /** Nothing stops before cancellation. */
  ghost predicate Unstopped(s: State)
  {
    !s.cancelled ==>
      && (forall w :: 0 <= w < |s.workers| ==> !s.workers[w].Stopped?)
      && (forall k :: 0 <= k < |s.tasks| ==> !s.tasks[k].stopped)
  }

  lemma UnstoppedKept(s: State, step: Step)
    requires Enabled(s, step) && Unstopped(s)
    ensures Unstopped(After(s, step))
  {
    hide Publish, TaskLog, GapBelow, WindowStart, Dropped;
    if step.Work? {
      hide VerifyStep;
      WorkStaysOrLeaves(s.cfg, s.workers[step.w].job, s.workers[step.w].phase, step.fetch, step.part);
    }
  }

  /** The invariant with Unstopped: what every reachable state satisfies. */
  ghost predicate Good(s: State, cfg: Config) { Invariant(s, cfg) && Unstopped(s) }

  lemma GoodKept(s: State, step: Step, cfg: Config)
    requires Enabled(s, step) && Good(s, cfg)
    ensures Good(After(s, step), cfg)
  {
    hide Invariant, Unstopped, After, Enabled;
    InvariantKept(s, step, cfg);
    UnstoppedKept(s, step);
  }

  lemma {:induction false} GoodHolds(cfg: Config, steps: seq<Step>)
    requires ValidRun(Init(cfg), steps)
    ensures Good(Run(Init(cfg), steps), cfg)
  {
    hide Invariant, After, Enabled;
    if steps == [] {
      InvariantAtStart(cfg);
    } else {
      hide Good, Init;
      GoodHolds(cfg, steps[..|steps| - 1]);
      GoodKept(Run(Init(cfg), steps[..|steps| - 1]), steps[|steps| - 1], cfg);
    }
  }

  // ----- no deadlock

  /** The queue takes a job exactly while it holds fewer than 2 * workers, from whoever is ready to send one;
      a worker at a job can always go on, and an idle one takes from any queue that is not empty. */
  lemma WhoCanMove(s: State, k: nat, i: nat, w: nat, fetch: FetchReply, part: PartReply)
    ensures s.main.Sending? ==> (Enabled(s, MainEnqueue) <==> |s.queue| < 2 * s.cfg.workers)
    ensures k < |s.tasks| && !s.tasks[k].stopped && s.tasks[k].pending.Some? ==>
              (Enabled(s, TaskEnqueue(k)) <==> |s.queue| < 2 * s.cfg.workers)
    ensures i < |s.timers| ==> (Enabled(s, TimerFire(i)) <==> |s.queue| < 2 * s.cfg.workers)
    ensures w < |s.workers| && s.workers[w].Busy? ==> Enabled(s, Work(w, fetch, part))
    ensures w < |s.workers| && s.workers[w].Idle? && s.queue != [] ==> Enabled(s, Dequeue(w))
  {
  }

  /** What a node may answer under this configuration, height by height. */
  ghost predicate Answers(cfg: Config, node: int -> HeaderReply)
  {
    cfg.honestNode ==> forall h :: node(h).GotHeader? ==> node(h).header.height == h
  }

  lemma ReachableGood(cfg: Config, s: State)
    requires Reachable(cfg, s)
    ensures Good(s, cfg)
  {
    hide Good, After, Enabled, Init;
    var steps :| ValidRun(Init(cfg), steps) && s == Run(Init(cfg), steps);
    GoodHolds(cfg, steps);
  }

  /** A live job that is with no worker, backfill or queue waits in the main loop or in a timer. */
  lemma LiveElsewhere(s: State)
    requires Weight(s, Live) > 0 && s.queue == []
    requires forall w :: 0 <= w < |s.workers| ==> !s.workers[w].Busy?
    requires forall k :: 0 <= k < |s.tasks| ==> s.tasks[k].pending.None?
    ensures s.main.Sending? || s.timers != []
  {
    hide Weight;
    var t := Found(s, Live);
  }

  lemma SomeStepEnabled(cfg: Config, s: State, fetch: FetchReply, part: PartReply, node: int -> HeaderReply)
    returns (step: Step)
    requires Good(s, cfg) && cfg.workers > 0 && !s.cancelled && HasWork(s) && Answers(cfg, node)
    ensures Enabled(s, step) && Internal(step)
    ensures step.Work? ==> step.fetch == fetch && step.part == part
    ensures step.TaskFetch? ==> step.reply == node(s.tasks[step.k].next)
  {
    hide Weight, WellFormed, AllWellFormed, LineageLedger, AttemptLedger, RoundLedger, MissingOwed, InFlightLedger,
         BackfillTotals;
    assert forall k :: 0 <= k < |s.tasks| && s.tasks[k].pending.Some? ==> TaskRunning(s.tasks[k]);
    if w :| 0 <= w < |s.workers| && s.workers[w].Busy? {
      step := Work(w, fetch, part);
    } else if s.queue != [] {
      step := Dequeue(0);
    } else if k :| 0 <= k < |s.tasks| && TaskRunning(s.tasks[k]) {
      if !s.tasks[k].begun { step := TaskBegin(k); }
      else if s.tasks[k].pending.Some? { step := TaskEnqueue(k); }
      else { step := TaskFetch(k, node(s.tasks[k].next)); }
    } else {
      LiveElsewhere(s);
      step := if s.main.Sending? then MainEnqueue else TimerFire(0);
    }
  }

  /** No deadlock: while there is work and no cancellation, some internal step is enabled, whatever the
      queue holds. `fetch`, `part` and `node` are the answers a worker or a backfill would get. */
  lemma NoDeadlock(cfg: Config, s: State, fetch: FetchReply, part: PartReply, node: int -> HeaderReply)
    returns (step: Step)
    requires Reachable(cfg, s) && cfg.workers > 0 && !s.cancelled && HasWork(s) && Answers(cfg, node)
    ensures Enabled(s, step) && Internal(step)
    ensures step.Work? ==> step.fetch == fetch && step.part == part
    ensures step.TaskFetch? ==> step.reply == node(s.tasks[step.k].next)
  {
    hide Reachable, Good, Enabled, HasWork;
    ReachableGood(cfg, s);
    step := SomeStepEnabled(cfg, s, fetch, part, node);
  }

  // ----- draining

  /** Every block is found submitted and every comparison matches. */
  ghost predicate Favourable(step: Step)
  {
    step.Work? ==>
      && step.fetch.FetchOk? && step.fetch.res.headerDaHeight != 0 && step.fetch.res.dataDaHeight != 0
      && step.part.timestampOk && step.part.verdict.Match?
  }

  ghost function EffortOfTask(t: Task): nat
  {
    if t.stopped || t.gap.to < t.gap.from then 0
    else if !t.begun then 1 + 11 * (t.gap.to - t.gap.from + 1)
    else if t.next > t.gap.to then 0
    else if t.pending.Some? then 11 * (t.gap.to - t.next) + 1
    else 11 * (t.gap.to - t.next + 1)
  }

  ghost function TaskEffort(): Task -> nat
  {
    (t: Task) => EffortOfTask(t)
  }

  /** Steps still needed once every answer is favourable. */
  ghost function Measure(s: State): nat { Weight(s, Effort) + SumBy(s.tasks, TaskEffort()) }

  lemma StretchEases(cfg: Config, j: Job, phase: Phase, fetch: FetchReply, part: PartReply)
    requires WellFormed(Token(j, InWorker(phase)), cfg)
    requires Favourable(Work(0, fetch, part))
    ensures CountOf(Effort, PutBy(VerifyStep(cfg, j, phase, fetch, part))) < Count(Effort, Token(j, InWorker(phase)))
  {
  }

  lemma TaskEases(t: Task, step: Step, lineage: nat)
    requires IsTaskStep(step) && TaskLedger(t) && !t.stopped
    requires step.TaskBegin? ==> !t.begun
    requires step.TaskFetch? ==> t.begun && t.next <= t.gap.to && t.pending.None?
    requires step.TaskEnqueue? ==> t.pending.Some?
    requires !step.TaskCancelled?
    ensures var got := step.TaskFetch? && step.reply.GotHeader?;
            EffortOfTask(TaskMove(t, step, lineage)) + (if got then 9 else 0)
            < EffortOfTask(t) + (if step.TaskEnqueue? then 1 else 0)
  {
    hide WindowStart, Dropped, GapSize;
    WindowSplitsGap(t.gap);
  }

  /** Every favourable internal step brings the system closer to having nothing left. */
  lemma FavourableStepEases(cfg: Config, s: State, step: Step)
    requires Good(s, cfg) && !s.cancelled && Enabled(s, step) && Internal(step) && Favourable(step)
    ensures Measure(After(s, step)) < Measure(s)
  {
    hide Weight, WellFormed, AllWellFormed, LineageLedger, AttemptLedger, RoundLedger, MissingOwed, InFlightLedger,
         BackfillTotals, VerifyStep, TaskLedger, TaskMove, EffortOfTask, WindowStart, Dropped, GapSize;
    Flow(s, step, Effort);
    TakenWellFormed(s, step);
    if step.Work? {
      StretchEases(s.cfg, s.workers[step.w].job, s.workers[step.w].phase, step.fetch, step.part);
    } else if IsTaskStep(step) {
      TaskFacts(s.tasks[step.k]);
      TaskEases(s.tasks[step.k], step, s.log.nextLineage);
      SumUpdate(s.tasks, step.k, TaskMove(s.tasks[step.k], step, s.log.nextLineage), TaskEffort());
    }
  }

  lemma NotCancelled(s: State, step: Step)
    requires Enabled(s, step) && Internal(step) && !s.cancelled
    ensures !After(s, step).cancelled
  {
  }

  lemma {:induction false} EachStepEases(cfg: Config, s: State, run: seq<Step>)
    requires ValidRun(s, run) && Good(s, cfg) && !s.cancelled
    requires forall i :: 0 <= i < |run| ==> Internal(run[i]) && Favourable(run[i])
    ensures Good(Run(s, run), cfg) && !Run(s, run).cancelled
    ensures |run| + Measure(Run(s, run)) <= Measure(s)
  {
    hide Good, After, Enabled, Measure;
    if run == [] {
    } else {
      var init, step := run[..|run| - 1], run[|run| - 1];
      EachStepEases(cfg, s, init);
      FavourableStepEases(cfg, Run(s, init), step);
      GoodKept(Run(s, init), step, cfg);
      NotCancelled(Run(s, init), step);
    }
  }

  /** No schedule can put the end off: from any reachable state, a run of favourable internal steps, however
      it is interleaved, is no longer than the measure of the state it starts from. */
  lemma FavourableRunsEnd(cfg: Config, s: State, run: seq<Step>)
    requires Reachable(cfg, s) && ValidRun(s, run) && !s.cancelled
    requires forall i :: 0 <= i < |run| ==> Internal(run[i]) && Favourable(run[i])
    ensures |run| <= Measure(s)
  {
    hide Reachable, Good, ValidRun, Measure;
    ReachableGood(cfg, s);
    EachStepEases(cfg, s, run);
  }

  /** A run of favourable internal steps, no longer than the measure, leads from s to `end`. */
  ghost predicate FavourablyLeads(s: State, end: State)
  {
    exists run :: ValidRun(s, run) && end == Run(s, run) && |run| <= Measure(s)
                  && forall i :: 0 <= i < |run| ==> Internal(run[i]) && Favourable(run[i])
  }

  lemma LiveUnlessGivenUp(t: Token)
    ensures Count(Live, t) == if t.stage.GivenUp? then 0 else 1
  {
  }

  lemma NoWorkNothingMissing(cfg: Config, s: State)
    requires Good(s, cfg) && !s.cancelled && !HasWork(s)
    ensures forall b :: s.log.counters.missing.At(b) == {}
  {
    hide Weight, Count;
    forall b, h
      ensures h !in s.log.counters.missing.At(b)
    {
      if h in s.log.counters.missing.At(b) {
        var t, i := MissingHasOwner(s, cfg, b, h);
        Counted(s, t, Live);
        LiveUnlessGivenUp(t);
      }
    }
  }

  lemma {:induction false} DrainFrom(cfg: Config, s: State, steps: seq<Step>) returns (run: seq<Step>)
    requires ValidRun(s, steps) && Good(Run(s, steps), cfg) && cfg.workers > 0 && !Run(s, steps).cancelled
    ensures steps <= run && ValidRun(s, run)
    ensures forall i :: |steps| <= i < |run| ==> Internal(run[i]) && Favourable(run[i])
    ensures |run| <= |steps| + Measure(Run(s, steps))
    ensures !HasWork(Run(s, run))
    ensures forall b :: Run(s, run).log.counters.missing.At(b) == {}
    decreases Measure(Run(s, steps))
  {
    hide Good, After, Enabled, HasWork, Measure;
    var now := Run(s, steps);
    if HasWork(now) {
      var res := BlockResult(1, 1, false);
      var step := SomeStepEnabled(cfg, now, FetchOk(res), PartReply(true, Match), _ => NoHeader);
      FavourableStepEases(cfg, now, step);
      GoodKept(now, step, cfg);
      NotCancelled(now, step);
      var more := steps + [step];
      assert more[..|steps|] == steps;
      run := DrainFrom(cfg, s, more);
    } else {
      run := steps;
      NoWorkNothingMissing(cfg, now);
    }
  }

  /** From any reachable uncancelled state with a worker, such a run leads to a state without work and
      without missing blocks. */
  lemma CanDrain(cfg: Config, s: State) returns (end: State)
    requires Reachable(cfg, s) && cfg.workers > 0 && !s.cancelled
    ensures FavourablyLeads(s, end)
    ensures !HasWork(end) && forall b :: end.log.counters.missing.At(b) == {}
  {
    hide Reachable, Good, After, Enabled, HasWork, Measure;
    ReachableGood(cfg, s);
    assert Run(s, []) == s;
    var run := DrainFrom(cfg, s, []);
    end := Run(s, run);
  }
}
