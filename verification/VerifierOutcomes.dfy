/** Why an outcome is in the history: what ev-node and the DA layer answered, in which attempt of which job. */
module VerifierOutcomes {
  import opened Options
  import opened Uint64
  import opened HeaderStream
  import opened Backfill
  import opened Sums
  import opened Verifier
  import opened VerifierFlow
  import opened VerifierLaws
  import opened VerifierSafety

  /** The DA height ev-node reports for the blob. */
  ghost function ReportedHeight(b: BlobType, res: BlockResult): nat
  {
    match b
    case HeaderBlob => res.headerDaHeight
    case DataBlob => res.dataDaHeight
  }

  /** The blob is submitted, the time of its DA block is known, and it was found there; an empty data blob
      need not be found. */
  ghost predicate Confirmed(b: BlobType, res: BlockResult, reply: PartReply)
  {
    match b
    case HeaderBlob => res.headerDaHeight != 0 && reply.timestampOk && reply.verdict.Match?
    case DataBlob => res.dataDaHeight != 0 && reply.timestampOk && (reply.verdict.Match? || res.dataBlobEmpty)
  }

  /** The job has to verify the blob and has not yet. */
  ghost predicate Pending(j: Job, b: BlobType)
  {
    match b
    case HeaderBlob => !j.headerDone
    case DataBlob => j.header.hasTransactions && !j.dataDone
  }

  /** The step records o: a worker is at a job of that lineage, round and height which has the blob pending,
      and either has a confirming answer for it under the reported DA height, or has run out of retries. */
  ghost predicate Records(s: State, step: Step, o: Outcome)
  {
    && step.Work? && step.w < |s.workers| && s.workers[step.w].Busy?
    && var j, phase := s.workers[step.w].job, s.workers[step.w].phase;
       && o.lineage == j.lineage && o.round == j.round && o.height == j.header.height && Pending(j, o.blob)
       && if o.verified
          then phase.Part? && phase.blob == o.blob && Confirmed(o.blob, phase.res, step.part)
               && o.daHeight == ReportedHeight(o.blob, phase.res)
          else phase == RecordFailure(o.blob) && j.attempt + 1 >= |s.cfg.retryIntervals| && o.daHeight == 0
  }

  lemma StretchRecordsExactly(cfg: Config, j: Job, phase: Phase, fetch: FetchReply, part: PartReply, o: Outcome)
    requires WellFormed(Token(j, InWorker(phase)), cfg)
    ensures VerifyStep(cfg, j, phase, fetch, part).outcome == Some(o) <==>
            && o.lineage == j.lineage && o.round == j.round && o.height == j.header.height && Pending(j, o.blob)
            && if o.verified
               then phase.Part? && phase.blob == o.blob && Confirmed(o.blob, phase.res, part)
                    && o.daHeight == ReportedHeight(o.blob, phase.res)
               else phase == RecordFailure(o.blob) && j.attempt + 1 >= |cfg.retryIntervals| && o.daHeight == 0
  {
  }

  lemma OptionalIs(h: seq<Outcome>, x: Option<Outcome>, o: Outcome)
    ensures h + Optional(x) == h + [o] <==> x == Some(o)
    ensures |h + Optional(x)| <= |h| + 1 && h <= h + Optional(x)
  {
    if x.Some? {
      assert (h + Optional(x))[|h|] == x.value && (h + [o])[|h|] == o;
    } else {
      assert h + Optional(x) == h && |h + [o]| == |h| + 1;
    }
  }

  /** A step adds to the history exactly the outcome it records. */
  lemma StepRecordsExactly(s: State, step: Step, o: Outcome)
    requires Enabled(s, step) && AllWellFormed(s)
    ensures |After(s, step).log.history| <= |s.log.history| + 1 && s.log.history <= After(s, step).log.history
    ensures After(s, step).log.history == s.log.history + [o] <==> Records(s, step, o)
  {
    hide After, VerifyStep, WellFormed, Confirmed, ReportedHeight, Pending;
    LogChange(s, step);
    TakenWellFormed(s, step);
    if step.Work? {
      StretchRecordsExactly(s.cfg, s.workers[step.w].job, s.workers[step.w].phase, step.fetch, step.part, o);
      OptionalIs(s.log.history, EffectOf(s, step).outcome, o);
    } else {
      OptionalIs(s.log.history, None, o);
    }
  }

  /** Step k of the run records o. */
  ghost predicate RecordedAt(cfg: Config, steps: seq<Step>, k: int, o: Outcome)
  {
    0 <= k < |steps| && ValidRun(Init(cfg), steps[..k]) && Records(Run(Init(cfg), steps[..k]), steps[k], o)
  }

  ghost predicate RecordedIn(cfg: Config, steps: seq<Step>, o: Outcome)
  {
    exists k :: RecordedAt(cfg, steps, k, o)
  }

  lemma NothingRecorded(cfg: Config, o: Outcome)
    ensures o !in Run(Init(cfg), []).log.history && !RecordedIn(cfg, [], o)
  {
  }

  lemma InvariantWellFormed(s: State, cfg: Config)
    requires Invariant(s, cfg)
    ensures AllWellFormed(s)
  {
  }

  lemma HistoryGrows(h: seq<Outcome>, h': seq<Outcome>, o: Outcome)
    requires h <= h' && |h'| <= |h| + 1
    ensures o in h' <==> o in h || h' == h + [o]
  {
    if |h'| == |h| {
      assert h' == h;
    } else {
      assert h' == h + [h'[|h|]];
      if h' == h + [o] { assert h'[|h|] == o; }
    }
  }

  lemma RecordedGrows(cfg: Config, steps: seq<Step>, o: Outcome)
    requires steps != [] && ValidRun(Init(cfg), steps)
    ensures var k := |steps| - 1;
            RecordedIn(cfg, steps, o) <==>
            RecordedIn(cfg, steps[..k], o) || Records(Run(Init(cfg), steps[..k]), steps[k], o)
  {
    hide Init, Run, Records, After, Enabled;
    var k := |steps| - 1;
    assert ValidRun(Init(cfg), steps[..k]);
    hide ValidRun;
    assert forall i :: 0 <= i <= k ==> steps[..k][..i] == steps[..i];
    if RecordedIn(cfg, steps[..k], o) {
      var i :| RecordedAt(cfg, steps[..k], i, o);
      assert RecordedAt(cfg, steps, i, o);
    }
    if RecordedIn(cfg, steps, o) {
      var i :| RecordedAt(cfg, steps, i, o);
      if i < k { assert RecordedAt(cfg, steps[..k], i, o); }
    }
    assert Records(Run(Init(cfg), steps[..k]), steps[k], o) ==> RecordedAt(cfg, steps, k, o);
  }

  /** Over every run an outcome is in the history exactly when some step recorded it: a verified one exactly
      for a confirming answer to a pending blob, with the DA height ev-node reported for that blob, and a
      failed one exactly for a blob still pending when the retries of its job are exhausted. */
  lemma {:induction false} HistoryExactly(cfg: Config, steps: seq<Step>, o: Outcome)
    requires ValidRun(Init(cfg), steps)
    ensures o in Run(Init(cfg), steps).log.history <==> RecordedIn(cfg, steps, o)
  {
    hide Init, After, Enabled, Records, Invariant;
    if steps == [] {
      NothingRecorded(cfg, o);
    } else {
      var k := |steps| - 1;
      var s := Run(Init(cfg), steps[..k]);
      HistoryExactly(cfg, steps[..k], o);
      InvariantHolds(cfg, steps[..k]);
      InvariantWellFormed(s, cfg);
      StepRecordsExactly(s, steps[k], o);
      RecordedGrows(cfg, steps, o);
      HistoryGrows(s.log.history, After(s, steps[k]).log.history, o);
    }
  }

  // ----- where a worker's block result comes from

  /** Step m is the block query of this attempt of this job, and ev-node answered res. */
  ghost predicate FetchedAt(cfg: Config, steps: seq<Step>, m: int, w: nat, j: Job, res: BlockResult)
  {
    && 0 <= m < |steps| && ValidRun(Init(cfg), steps[..m])
    && steps[m].Work? && steps[m].w == w && steps[m].fetch == FetchOk(res)
    && var s := Run(Init(cfg), steps[..m]);
       && w < |s.workers| && s.workers[w].Busy? && s.workers[w].phase.Fetch?
       && s.workers[w].job.lineage == j.lineage && s.workers[w].job.round == j.round
       && s.workers[w].job.tries == j.tries
  }

  ghost predicate Fetched(cfg: Config, steps: seq<Step>, w: nat, j: Job, res: BlockResult)
  {
    exists m :: FetchedAt(cfg, steps, m, w, j, res)
  }

  lemma FetchedGrows(cfg: Config, steps: seq<Step>, w: nat, j: Job, j': Job, res: BlockResult)
    requires steps != [] && Fetched(cfg, steps[..|steps| - 1], w, j, res)
    requires j'.lineage == j.lineage && j'.round == j.round && j'.tries == j.tries
    ensures Fetched(cfg, steps, w, j', res)
  {
    hide Init, Run, ValidRun;
    var init := steps[..|steps| - 1];
    var m :| FetchedAt(cfg, init, m, w, j, res);
    assert init[..m] == steps[..m];
    assert FetchedAt(cfg, steps, m, w, j', res);
  }

  lemma StretchHolds(cfg: Config, j: Job, phase: Phase, fetch: FetchReply, part: PartReply)
    ensures var e := VerifyStep(cfg, j, phase, fetch, part).worker;
            e.Busy? && e.phase.Part? ==>
              && e.job.lineage == j.lineage && e.job.round == j.round && e.job.tries == j.tries
              && ((phase.Part? && phase.res == e.phase.res) || (phase.Fetch? && fetch == FetchOk(e.phase.res)))
  {
    hide PartVerified, DaHeight;
  }

  lemma OthersKeepWorking(s: State, step: Step, w: nat)
    requires Enabled(s, step) && w < |After(s, step).workers|
    ensures w < |s.workers|
    ensures !(step.Work? && step.w == w) && After(s, step).workers[w].Busy? && After(s, step).workers[w].phase.Part? ==>
              After(s, step).workers[w] == s.workers[w]
    ensures step.Work? && step.w == w ==>
              After(s, step).workers[w]
              == VerifyStep(s.cfg, s.workers[w].job, s.workers[w].phase, step.fetch, step.part).worker
  {
    hide VerifyStep, Publish, TaskLog, TaskMove, OpensGap, GapBelow;
  }

  lemma WorkIsBusy(s: State, step: Step)
    requires Enabled(s, step) && step.Work?
    ensures step.w < |s.workers| && s.workers[step.w].Busy?
  {
  }

  lemma FetchedNow(cfg: Config, steps: seq<Step>, w: nat, j: Job, res: BlockResult)
    requires steps != [] && ValidRun(Init(cfg), steps)
    requires var k := |steps| - 1;
             var s := Run(Init(cfg), steps[..k]);
             && steps[k].Work? && steps[k].w == w && steps[k].fetch == FetchOk(res)
             && w < |s.workers| && s.workers[w].Busy? && s.workers[w].phase.Fetch?
             && s.workers[w].job.lineage == j.lineage && s.workers[w].job.round == j.round
             && s.workers[w].job.tries == j.tries
    ensures Fetched(cfg, steps, w, j, res)
  {
    hide Init, After, Enabled;
    assert FetchedAt(cfg, steps, |steps| - 1, w, j, res);
  }

  /** A worker judges a blob by the block result that ev-node answered in the same attempt of its job. */
  lemma {:induction false} ResultFromFetch(cfg: Config, steps: seq<Step>, w: nat)
    requires ValidRun(Init(cfg), steps) && w < |Run(Init(cfg), steps).workers|
    ensures var x := Run(Init(cfg), steps).workers[w];
            x.Busy? && x.phase.Part? ==> Fetched(cfg, steps, w, x.job, x.phase.res)
  {
    hide After, Enabled, VerifyStep, Fetched;
    if steps == [] {
    } else {
      hide Init;
      var k := |steps| - 1;
      var s, x := Run(Init(cfg), steps[..k]), Run(Init(cfg), steps).workers[w];
      OthersKeepWorking(s, steps[k], w);
      ResultFromFetch(cfg, steps[..k], w);
      if x.Busy? && x.phase.Part? {
        if steps[k].Work? && steps[k].w == w {
          WorkIsBusy(s, steps[k]);
          var was := s.workers[w];
          StretchHolds(s.cfg, was.job, was.phase, steps[k].fetch, steps[k].part);
          if was.phase.Part? {
            FetchedGrows(cfg, steps, w, was.job, x.job, x.phase.res);
          } else {
            FetchedNow(cfg, steps, w, x.job, x.phase.res);
          }
        } else {
          FetchedGrows(cfg, steps, w, x.job, x.job, x.phase.res);
        }
      }
    }
  }

  /** Over every run, behind each verified outcome stand two answers of one attempt of one job: ev-node's block
      result, and a DA answer that confirms the blob under the DA height that result gives for it, which is
      the DA height published. */
  lemma VerifiedTraced(cfg: Config, steps: seq<Step>, o: Outcome)
    returns (m: nat, k: nat, res: BlockResult)
    requires ValidRun(Init(cfg), steps) && o in Run(Init(cfg), steps).log.history && o.verified
    ensures m < k < |steps| && steps[m].Work? && steps[k].Work? && steps[m].w == steps[k].w
    ensures steps[m].fetch == FetchOk(res)
    ensures Confirmed(o.blob, res, steps[k].part) && o.daHeight == ReportedHeight(o.blob, res) != 0
    ensures RecordedAt(cfg, steps, k, o)
    ensures FetchedAt(cfg, steps, m, steps[k].w, Run(Init(cfg), steps[..k]).workers[steps[k].w].job, res)
  {
    hide Init, After, Enabled, Run, ValidRun;
    HistoryExactly(cfg, steps, o);
    k :| RecordedAt(cfg, steps, k, o);
    var x := Run(Init(cfg), steps[..k]).workers[steps[k].w];
    res := x.phase.res;
    ResultFromFetch(cfg, steps[..k], steps[k].w);
    m :| FetchedAt(cfg, steps[..k], m, steps[k].w, x.job, res);
    assert steps[..k][..m] == steps[..m];
  }
}
