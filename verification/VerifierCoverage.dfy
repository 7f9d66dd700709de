/** From the header stream to the verified block: between the first header received and lastHeight no height
    is lost on the way through gap detection, backfills, queue, workers and timers. */
module VerifierCoverage {
  import opened Options
  import opened Uint64
  import opened HeaderStream
  import opened Backfill
  import opened Sums
  import opened Verifier
  import opened VerifierFlow
  import opened VerifierLaws
  import opened VerifierSafety
  import opened VerifierTheorems
  import opened VerifierProgress

  /** The jobs of height h, wherever they are, and its verified rounds. */
  ghost function Tracks(s: State, h: int): nat
  {
    Weight(s, OfHeight(h)) + Rounds(s.log, VerifiedHeight(h))
  }

  lemma StretchTracks(cfg: Config, j: Job, phase: Phase, fetch: FetchReply, part: PartReply, h: int)
    ensures var e := VerifyStep(cfg, j, phase, fetch, part);
            Count(OfHeight(h), Token(j, InWorker(phase)))
            <= CountOf(OfHeight(h), PutBy(e)) + CountRoundOf(VerifiedHeight(h), e.ended)
  {
    hide VerifyStep;
    StretchContinues(cfg, j, phase, fetch, part);
  }

  lemma MoveTracks(s: State, step: Step, h: int)
    requires Enabled(s, step) && !step.Work?
    ensures CountOf(OfHeight(h), Taken(s, step)) <= CountOf(OfHeight(h), Put(s, step))
  {
    Moves(s, step);
  }

  /** Nothing that has a height ever gets lost, and a new job gives its height a track. */
  lemma TracksStay(s: State, step: Step, h: int)
    requires Enabled(s, step)
    ensures Tracks(s, h) > 0 ==> Tracks(After(s, step), h) > 0
    ensures Taken(s, step).None? && Put(s, step).Some? && Put(s, step).value.job.header.height == h
            ==> Tracks(After(s, step), h) > 0
  {
    hide After, Weight, VerifyStep, OnVerified, PutBy, CountRound;
    Flow(s, step, OfHeight(h));
    LogChange(s, step);
    RoundsAppend(s.log.rounds, EffectOf(s, step).ended, VerifiedHeight(h));
    if step.Work? {
      StretchTracks(s.cfg, s.workers[step.w].job, s.workers[step.w].phase, step.fetch, step.part, h);
    } else {
      MoveTracks(s, step, h);
    }
  }

  /** Every height of its window that a backfill is past was skipped or has a track. */
  ghost predicate WindowTracked(s: State, t: Task)
  {
    t.begun ==> forall h :: WindowStart(t.gap) <= h < t.next + One(t.pending.Some?) ==>
                  h in t.skipped || Tracks(s, h) > 0
  }

  ghost predicate AllTracked(s: State)
  {
    && (forall h :: h in s.log.received ==> Tracks(s, h) > 0)
    && (forall k :: 0 <= k < |s.tasks| ==> WindowTracked(s, s.tasks[k]))
  }

  lemma TaskStaysTracked(s: State, s': State, t: Task, step: Step, lineage: nat)
    requires IsTaskStep(step) && TaskLedger(t) && WindowTracked(s, t)
    requires forall h :: Tracks(s, h) > 0 ==> Tracks(s', h) > 0
    requires step.TaskBegin? ==> !t.begun
    requires step.TaskFetch? ==> t.begun && t.pending.None? && (step.reply.GotHeader? ==> Tracks(s', t.next) > 0)
    requires step.TaskEnqueue? ==> t.pending.Some?
    ensures WindowTracked(s', TaskMove(t, step, lineage))
  {
    hide Tracks, WindowStart, Dropped;
  }

  lemma StillTracked(s: State, s': State, t: Task)
    requires WindowTracked(s, t)
    requires forall h :: Tracks(s, h) > 0 ==> Tracks(s', h) > 0
    ensures WindowTracked(s', t)
  {
    hide Tracks;
  }

  lemma NotBegunTracked(s: State, t: Task)
    requires !t.begun
    ensures WindowTracked(s, t)
  {
  }

  lemma TrackedKept(s: State, step: Step)
    requires Enabled(s, step) && s.cfg.honestNode && StreamFollowed(s) && AllTracked(s)
    ensures AllTracked(After(s, step))
  {
    hide Tracks, WindowTracked, TaskLedger, TaskMove, VerifyStep, Dropped, OpensGap, GapBelow;
    var s' := After(s, step);
    forall h
      ensures Tracks(s, h) > 0 ==> Tracks(s', h) > 0
    {
      TracksStay(s, step, h);
    }
    if step.Receive? { TracksStay(s, step, step.header.height); }
    if IsTaskStep(step) {
      var t := s.tasks[step.k];
      TracksStay(s, step, t.next);
      TaskStaysTracked(s, s', t, step, s.log.nextLineage);
    }
    forall k | 0 <= k < |s'.tasks|
      ensures WindowTracked(s', s'.tasks[k])
    {
      if k < |s.tasks| && s'.tasks[k] == s.tasks[k] {
        StillTracked(s, s', s.tasks[k]);
      } else if k >= |s.tasks| {
        NotBegunTracked(s', s'.tasks[k]);
      }
    }
  }

  lemma NothingToTrack(cfg: Config)
    ensures AllTracked(Init(cfg))
  {
  }

  lemma StreamAndConfig(s: State, cfg: Config)
    requires Invariant(s, cfg)
    ensures StreamFollowed(s) && s.cfg == cfg
  {
  }

  lemma {:induction false} TrackedHolds(cfg: Config, steps: seq<Step>)
    requires ValidRun(Init(cfg), steps) && cfg.honestNode
    ensures AllTracked(Run(Init(cfg), steps))
  {
    hide AllTracked, After, Enabled, Invariant, Init;
    if steps == [] {
      NothingToTrack(cfg);
    } else {
      var init := steps[..|steps| - 1];
      TrackedHolds(cfg, init);
      InvariantHolds(cfg, init);
      StreamAndConfig(Run(Init(cfg), init), cfg);
      TrackedKept(Run(Init(cfg), init), steps[|steps| - 1]);
    }
  }

  // ----- theorems

  /** What a backfill does with height h of its gap instead of turning it into a job. */
  ghost predicate LeftOut(t: Task, h: int)
  {
    Inside(h, t.gap) && ((t.begun && h < WindowStart(t.gap)) || h in t.skipped)
  }

  /** A backfill has not come to height h yet. */
  ghost predicate Ahead(t: Task, h: int)
  {
    Inside(h, t.gap) && (!t.begun || t.next <= h)
  }

  ghost predicate Fate(s: State, h: int)
  {
    Tracks(s, h) > 0 || exists k :: 0 <= k < |s.tasks| && (LeftOut(s.tasks[k], h) || Ahead(s.tasks[k], h))
  }

  /** h lies between the first height received and lastHeight, and no header jumped while lastHeight was 0. */
  ghost predicate InScope(s: State, h: int)
  {
    && s.log.received != [] && s.log.received[0] <= h <= s.lastHeight
    && forall n :: 0 <= n < |s.log.received| ==> !SkipsFromZero(s.log.received, n)
  }

  lemma ReachableTracked(cfg: Config, s: State)
    requires Reachable(cfg, s) && cfg.honestNode
    ensures Good(s, cfg) && StreamFollowed(s) && AllTracked(s)
  {
    hide After, Enabled, Init, Invariant, AllTracked, StreamFollowed;
    var steps :| ValidRun(Init(cfg), steps) && s == Run(Init(cfg), steps);
    ReachableGood(cfg, s);
    StreamAndConfig(s, cfg);
    TrackedHolds(cfg, steps);
  }

  /** After any run with an honest node in which no header jumps while lastHeight is 0, every height from the
      first one received up to lastHeight has a job or a verified round, was dropped or skipped by a
      backfill, or is still ahead of one. */
  lemma NoHeightOverlooked(cfg: Config, s: State, h: int)
    requires Reachable(cfg, s) && cfg.honestNode && InScope(s, h)
    ensures Fate(s, h)
  {
    hide Reachable, Good, Tracks, TaskLedger, SkipsFromZero, Last, Intervals, WindowStart;
    var r := s.log.received;
    ReachableTracked(cfg, s);
    CoveredUpTo(r, |r|);
    assert r[..|r|] == r;
    assert Seen(r, h);
    if h !in r {
      var b :| b in Intervals(r) && Inside(h, b);
      var k :| 0 <= k < |s.tasks| && Gaps(s.tasks)[k] == b;
      assert WindowTracked(s, s.tasks[k]);
      assert LeftOut(s.tasks[k], h) || Ahead(s.tasks[k], h) || Tracks(s, h) > 0;
    }
  }

  /** Height h was verified in a completed round. */
  ghost predicate HasVerifiedRound(s: State, h: int)
  {
    exists i :: 0 <= i < |s.log.rounds| && s.log.rounds[i].header.height == h && s.log.rounds[i].verified
  }

  lemma NoJobLeft(cfg: Config, s: State, h: int)
    requires Good(s, cfg) && !s.cancelled && !HasWork(s)
    ensures Weight(s, OfHeight(h)) == 0
  {
    hide Weight, Count;
    if Weight(s, OfHeight(h)) > 0 {
      var t := Found(s, OfHeight(h));
      Counted(s, t, Live);
      LiveUnlessGivenUp(t);
    }
  }

  lemma NothingAhead(cfg: Config, s: State, k: nat, h: int)
    requires Good(s, cfg) && !s.cancelled && !HasWork(s) && k < |s.tasks|
    ensures !Ahead(s.tasks[k], h)
  {
    hide Weight;
    assert !TaskRunning(s.tasks[k]);
  }

  /** So once there is nothing left to do, every such height has been verified in a completed round, unless
      the backfill cap dropped it or its header could not be fetched. */
  lemma DrainedMeansVerified(cfg: Config, s: State, h: int)
    requires Reachable(cfg, s) && cfg.honestNode && InScope(s, h) && !s.cancelled && !HasWork(s)
    ensures HasVerifiedRound(s, h) || exists k :: 0 <= k < |s.tasks| && LeftOut(s.tasks[k], h)
  {
    hide Reachable, InScope, Good, StreamFollowed, AllTracked, HasWork, LeftOut, Weight;
    NoHeightOverlooked(cfg, s, h);
    ReachableTracked(cfg, s);
    if Tracks(s, h) > 0 {
      NoJobLeft(cfg, s, h);
      var i := SumPositive(s.log.rounds, RoundValue(VerifiedHeight(h)));
    } else {
      var k :| 0 <= k < |s.tasks| && (LeftOut(s.tasks[k], h) || Ahead(s.tasks[k], h));
      NothingAhead(cfg, s, k, h);
    }
  }

  // ----- what each backfill enqueues

  /** Below `next`, the backfill enqueued the heights of its window that it did not skip, one job each, in
      ascending order; while it skips none, they are consecutive from the window's start. */
  ghost predicate InOrder(t: Task)
  {
    && (!t.begun ==> t.enqueued == t.skipped == [])
    && (t.pending.Some? ==> t.pending.value.header.height == t.next)
    && (forall i, j :: 0 <= i < j < |t.enqueued| ==> t.enqueued[i] < t.enqueued[j])
    && (forall h :: h in t.enqueued || h in t.skipped <==> t.begun && WindowStart(t.gap) <= h < t.next)
    && (forall h :: !(h in t.enqueued && h in t.skipped))
    && (t.skipped == [] ==> forall i :: 0 <= i < |t.enqueued| ==> t.enqueued[i] == WindowStart(t.gap) + i)
  }

  lemma InOrderKept(t: Task, step: Step, lineage: nat)
    requires IsTaskStep(step) && TaskLedger(t) && InOrder(t)
    requires step.TaskBegin? ==> !t.begun
    requires step.TaskFetch? ==> t.begun && t.pending.None?
    requires step.TaskFetch? && step.reply.GotHeader? ==> step.reply.header.height == t.next
    requires step.TaskEnqueue? ==> t.pending.Some?
    ensures InOrder(TaskMove(t, step, lineage))
  {
    hide WindowStart, Dropped;
    WindowSplitsGap(t.gap);
    var t' := TaskMove(t, step, lineage);
    if step.TaskEnqueue? {
      assert t'.enqueued == t.enqueued + [t.next];
      assert forall h :: h in t'.enqueued <==> h in t.enqueued || h == t.next;
      assert forall i :: 0 <= i < |t.enqueued| ==> t.enqueued[i] in t.enqueued;
    }
    if step.TaskFetch? && step.reply.NoHeader? {
      assert forall h :: h in t'.skipped <==> h in t.skipped || h == t.next;
    }
  }

  lemma NotBegunInOrder(t: Task)
    requires !t.begun && t.enqueued == t.skipped == [] && t.pending.None?
    ensures InOrder(t)
  {
  }

  lemma AllInOrderKept(s: State, step: Step)
    requires Enabled(s, step) && s.cfg.honestNode && StreamFollowed(s)
    requires forall k :: 0 <= k < |s.tasks| ==> InOrder(s.tasks[k])
    ensures forall k :: 0 <= k < |After(s, step).tasks| ==> InOrder(After(s, step).tasks[k])
  {
    hide TaskLedger, InOrder, TaskMove, VerifyStep, OpensGap, GapBelow, Dropped;
    if IsTaskStep(step) {
      InOrderKept(s.tasks[step.k], step, s.log.nextLineage);
    } else if step.Receive? {
      forall k | |s.tasks| <= k < |After(s, step).tasks|
        ensures InOrder(After(s, step).tasks[k])
      {
        NotBegunInOrder(After(s, step).tasks[k]);
      }
    } else {
      OtherwiseUntouched(s, step);
    }
  }

  lemma {:induction false} InOrderHolds(cfg: Config, steps: seq<Step>)
    requires ValidRun(Init(cfg), steps) && cfg.honestNode
    ensures forall k :: 0 <= k < |Run(Init(cfg), steps).tasks| ==> InOrder(Run(Init(cfg), steps).tasks[k])
  {
    hide InOrder, After, Enabled, Invariant;
    if steps == [] {
    } else {
      hide Init;
      var init := steps[..|steps| - 1];
      InOrderHolds(cfg, init);
      InvariantHolds(cfg, init);
      StreamAndConfig(Run(Init(cfg), init), cfg);
      AllInOrderKept(Run(Init(cfg), init), steps[|steps| - 1]);
    }
  }

  /** In every reachable state with an honest node, whatever else runs in between: each backfill has enqueued
      the heights of its window that it did not skip, once each and in ascending order; and one that skipped
      none and is through has enqueued exactly the newest min(gap, MAX_BACKFILL) heights. */
  lemma BackfillEnqueuesInOrder(cfg: Config, s: State, k: nat, i: nat)
    requires Reachable(cfg, s) && cfg.honestNode && k < |s.tasks|
    ensures InOrder(s.tasks[k])
    ensures var t := s.tasks[k];
            var size := t.gap.to - t.gap.from + 1;
            t.begun && t.skipped == [] && t.next == t.gap.to + 1 ==>
              && |t.enqueued| == (if size < MAX_BACKFILL then size else MAX_BACKFILL)
              && (i < |t.enqueued| ==> t.enqueued[i] == t.gap.to - |t.enqueued| + 1 + i)
  {
    hide After, Enabled, Init, Invariant;
    var steps :| ValidRun(Init(cfg), steps) && s == Run(Init(cfg), steps);
    InvariantHolds(cfg, steps);
    StreamAndConfig(s, cfg);
    InOrderHolds(cfg, steps);
    WindowSplitsGap(s.tasks[k].gap);
  }

  // ----- headers

  /** The step brings this header in: the subscription delivers it, or a backfill fetches it. */
  ghost predicate BringsIn(step: Step, header: Header)
  {
    step == Receive(header) || (step.TaskFetch? && step.reply == GotHeader(header))
  }

  /** The jobs of exactly this header, wherever they are, and its verified rounds. */
  ghost function TracksOf(s: State, header: Header): nat
  {
    Weight(s, OfHeader(header)) + Rounds(s.log, VerifiedHeader(header))
  }

  lemma StretchTracksHeader(cfg: Config, j: Job, phase: Phase, fetch: FetchReply, part: PartReply, h: Header)
    ensures var e := VerifyStep(cfg, j, phase, fetch, part);
            Count(OfHeader(h), Token(j, InWorker(phase)))
            <= CountOf(OfHeader(h), PutBy(e)) + CountRoundOf(VerifiedHeader(h), e.ended)
  {
    hide VerifyStep;
    StretchContinues(cfg, j, phase, fetch, part);
  }

  lemma MoveTracksHeader(s: State, step: Step, h: Header)
    requires Enabled(s, step) && !step.Work?
    ensures CountOf(OfHeader(h), Taken(s, step)) <= CountOf(OfHeader(h), Put(s, step))
    ensures BringsIn(step, h) ==> Taken(s, step).None? && CountOf(OfHeader(h), Put(s, step)) == 1
  {
    Moves(s, step);
  }

  lemma HeaderStays(s: State, step: Step, h: Header)
    requires Enabled(s, step)
    ensures TracksOf(s, h) > 0 || BringsIn(step, h) ==> TracksOf(After(s, step), h) > 0
  {
    hide After, Weight, VerifyStep, OnVerified, PutBy, CountRound, Count;
    Flow(s, step, OfHeader(h));
    LogChange(s, step);
    RoundsAppend(s.log.rounds, EffectOf(s, step).ended, VerifiedHeader(h));
    if step.Work? {
      StretchTracksHeader(s.cfg, s.workers[step.w].job, s.workers[step.w].phase, step.fetch, step.part, h);
    } else {
      MoveTracksHeader(s, step, h);
    }
  }

  /** Over every run: each header that came in, by subscription or backfill, has a job or a verified round of
      exactly that header from then on, its transactions flag included, also next to others of its height. */
  lemma {:induction false} NoHeaderLost(cfg: Config, steps: seq<Step>, k: nat, header: Header)
    requires ValidRun(Init(cfg), steps) && k < |steps| && BringsIn(steps[k], header)
    ensures TracksOf(Run(Init(cfg), steps), header) > 0
    decreases |steps|
  {
    hide Init, After, Enabled, TracksOf;
    var last := |steps| - 1;
    HeaderStays(Run(Init(cfg), steps[..last]), steps[last], header);
    if k == last {
    } else {
      NoHeaderLost(cfg, steps[..last], k, header);
    }
  }

  lemma NewJobBroughtIn(s: State, step: Step)
    requires Enabled(s, step) && Taken(s, step).None? && Put(s, step).Some?
    ensures BringsIn(step, Put(s, step).value.job.header)
  {
  }

  /** A job found after a step has the header of one that was there before, or the one the step brings in. */
  lemma HeaderOrigin(s: State, step: Step, t: Token) returns (before: Token)
    requires Enabled(s, step) && At(After(s, step), t)
    ensures BringsIn(step, t.job.header) || (At(s, before) && before.job.header == t.job.header)
  {
    hide After, VerifyStep, Weight, At, BringsIn;
    Counted(After(s, step), t, Exactly(t));
    Flow(s, step, Exactly(t));
    before := t;
    if Weight(s, Exactly(t)) > 0 {
      before := Found(s, Exactly(t));
    } else if Taken(s, step).Some? {
      TakenWithin(s, step, Exactly(Taken(s, step).value));
      before := Found(s, Exactly(Taken(s, step).value));
      if step.Work? {
        StretchContinues(s.cfg, s.workers[step.w].job, s.workers[step.w].phase, step.fetch, step.part);
      } else {
        Moves(s, step);
      }
    } else {
      NewJobBroughtIn(s, step);
    }
  }

  /** And no job has any other header: each one's came in at some step. */
  lemma {:induction false} JobsHaveHeaders(cfg: Config, steps: seq<Step>, t: Token) returns (k: nat)
    requires ValidRun(Init(cfg), steps) && At(Run(Init(cfg), steps), t)
    ensures k < |steps| && BringsIn(steps[k], t.job.header)
  {
    hide After, Enabled, BringsIn;
    if steps == [] {
      assert false;
    } else {
      hide Init, At;
      var last := |steps| - 1;
      var before := HeaderOrigin(Run(Init(cfg), steps[..last]), steps[last], t);
      if BringsIn(steps[last], t.job.header) {
        k := last;
      } else {
        k := JobsHaveHeaders(cfg, steps[..last], before);
      }
    }
  }
}
