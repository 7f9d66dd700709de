/** What every step of the verifier keeps: the ledgers that tie jobs, rounds, outcomes and counters. */
module VerifierLaws {
  import opened Options
  import opened Uint64
  import opened Backfill
  import opened Sums
  import opened Verifier
  import opened VerifierFlow

  // ----- counting outcomes and rounds

  datatype OutcomeTally =
    | Attempts(blob: BlobType)
    | Failures(blob: BlobType)
    | InRound(blob: BlobType, lineage: nat, round: nat)

  ghost function CountOutcome(q: OutcomeTally, o: Outcome): nat
  {
    match q
    case Attempts(b) => One(o.blob == b)
    case Failures(b) => One(o.blob == b && !o.verified)
    case InRound(b, l, r) => One(o.blob == b && o.lineage == l && o.round == r)
  }

  ghost function OutcomeValue(q: OutcomeTally): Outcome -> nat
  {
    (o: Outcome) => CountOutcome(q, o)
  }

  datatype RoundTally =
    | Requiring(blob: BlobType)
    | RequiringIn(blob: BlobType, lineage: nat, round: nat)
    | SparingIn(blob: BlobType, lineage: nat, round: nat)
    | Ended(lineage: nat, round: nat)
    | VerifiedFrom(lineage: nat, round: nat)
    | VerifiedHeight(height: int)
    | VerifiedHeader(header: Header)
    | Nothing

  ghost predicate RoundRequires(r: Round, b: BlobType) { b.HeaderBlob? || r.header.hasTransactions }

  ghost function CountRound(q: RoundTally, r: Round): nat
  {
    match q
    case Requiring(b) => One(RoundRequires(r, b))
    case RequiringIn(b, l, n) => One(RoundRequires(r, b) && r.lineage == l && r.round == n)
    case SparingIn(b, l, n) => One(!RoundRequires(r, b) && r.lineage == l && r.round == n)
    case Ended(l, n) => One(r.lineage == l && r.round == n)
    case VerifiedFrom(l, n) => One(r.lineage == l && r.round >= n && r.verified)
    case VerifiedHeight(h) => One(r.header.height == h && r.verified)
    case VerifiedHeader(h) => One(r.header == h && r.verified)
    case Nothing => 0
  }

  ghost function RoundValue(q: RoundTally): Round -> nat
  {
    (r: Round) => CountRound(q, r)
  }

  ghost function Outcomes(log: Log, q: OutcomeTally): nat { SumBy(log.history, OutcomeValue(q)) }

  ghost function Rounds(log: Log, q: RoundTally): nat { SumBy(log.rounds, RoundValue(q)) }

  // ----- one stretch of verifyBlock, job by job

  /** The outcome a stretch records is about its own job and round, and it is a required part not yet done. */
  ghost predicate AboutJob(j: Job, e: Effect)
  {
    && (e.outcome.Some? ==>
          var o := e.outcome.value;
          o == OutcomeOf(j, o.blob, o.verified, o.daHeight) && j.Requires(o.blob) && !j.Done(o.blob))
    && (e.ended.Some? ==> e.ended.value == Round(j.header, j.lineage, j.round, e.ended.value.verified))
  }

  ghost function CountOutcomeOf(q: OutcomeTally, o: Option<Outcome>): nat
  {
    if o.Some? then CountOutcome(q, o.value) else 0
  }

  ghost function CountRoundOf(q: RoundTally, r: Option<Round>): nat
  {
    if r.Some? then CountRound(q, r.value) else 0
  }

  /** A verified job leaves; any other keeps its lineage and header, and moves to the next round only
      when its round ended. */
  ghost predicate Continues(j: Job, e: Effect)
  {
    match PutBy(e)
    case None => e.ended.Some? && e.ended.value.verified
    case Some(t) =>
      && t.job.lineage == j.lineage && t.job.header == j.header
      && t.job.round == (if e.ended.Some? then j.round + 1 else j.round)
      && (e.ended.Some? ==> !e.ended.value.verified)
  }

  lemma StretchContinues(cfg: Config, j: Job, phase: Phase, fetch: FetchReply, part: PartReply)
    ensures AboutJob(j, VerifyStep(cfg, j, phase, fetch, part))
    ensures Continues(j, VerifyStep(cfg, j, phase, fetch, part))
  {
  }

  /** Exactly one outcome per required part between the start and the end of a round, and the in-flight
      gauge follows the start mark. */
  ghost predicate RecordsBalance(t: Token, e: Effect, b: BlobType, l: nat, r: nat)
  {
    && CountOf(InFlight, PutBy(e)) == Count(InFlight, t) + e.inflight
    && CountOutcomeOf(Attempts(b), e.outcome) + Count(Recorded(b), t)
       == CountRoundOf(Requiring(b), e.ended) + CountOf(Recorded(b), PutBy(e))
    && CountOutcomeOf(InRound(b, l, r), e.outcome) + Count(RecordedIn(b, l, r), t)
       == CountRoundOf(RequiringIn(b, l, r), e.ended) + CountOf(RecordedIn(b, l, r), PutBy(e))
  }

  /** The rounds of one lineage end one after the other, and a lineage ends with a verified round. */
  ghost predicate RoundsBalance(t: Token, e: Effect, l: nat, r: nat)
  {
    && CountRoundOf(Ended(l, r), e.ended) + Count(PastRound(l, r), t)
       == CountOf(PastRound(l, r), PutBy(e)) + CountRoundOf(VerifiedFrom(l, r), e.ended)
    && Count(OfLineage(l), t) == CountOf(OfLineage(l), PutBy(e)) + CountRoundOf(VerifiedFrom(l, 0), e.ended)
  }

  lemma StretchWellFormed(cfg: Config, j: Job, phase: Phase, fetch: FetchReply, part: PartReply)
    requires WellFormed(Token(j, InWorker(phase)), cfg)
    ensures var put := PutBy(VerifyStep(cfg, j, phase, fetch, part)); put.Some? ==> WellFormed(put.value, cfg)
  {
  }

  lemma StretchRecords(cfg: Config, j: Job, phase: Phase, fetch: FetchReply, part: PartReply,
                       b: BlobType, l: nat, r: nat)
    requires WellFormed(Token(j, InWorker(phase)), cfg)
    ensures RecordsBalance(Token(j, InWorker(phase)), VerifyStep(cfg, j, phase, fetch, part), b, l, r)
  {
    hide PartVerified, DaHeight;
  }

  lemma StretchRounds(cfg: Config, j: Job, phase: Phase, fetch: FetchReply, part: PartReply, l: nat, r: nat)
    ensures RoundsBalance(Token(j, InWorker(phase)), VerifyStep(cfg, j, phase, fetch, part), l, r)
  {
    hide VerifyStep;
    StretchContinues(cfg, j, phase, fetch, part);
  }

  ghost predicate Verifies(o: Option<Outcome>, b: BlobType, h: int)
  {
    o.Some? && o.value.blob == b && o.value.height == h && o.value.verified
  }

  /** A job past a failure stops owing the blob only by recording it as verified, and a recorded failure
      leaves its own job past it, still owing the blob. */
  ghost predicate KeepsOwing(t: Token, e: Effect, o: Outcome)
  {
    && (CountOf(Owing(o), PutBy(e)) >= Count(Owing(o), t) || Verifies(e.outcome, o.blob, o.height))
    && (e.outcome.Some? && !e.outcome.value.verified ==> CountOf(Owing(e.outcome.value), PutBy(e)) == 1)
  }

  lemma StretchKeepsOwing(cfg: Config, j: Job, phase: Phase, fetch: FetchReply, part: PartReply, o: Outcome)
    requires WellFormed(Token(j, InWorker(phase)), cfg)
    ensures KeepsOwing(Token(j, InWorker(phase)), VerifyStep(cfg, j, phase, fetch, part), o)
  {
  }

  // ----- any step, job by job

  /** What a step publishes: only verifyBlock publishes outcomes, in-flight changes and rounds. */
  ghost function EffectOf(s: State, step: Step): Effect
    requires Enabled(s, step)
  {
    if step.Work? then VerifyStep(s.cfg, s.workers[step.w].job, s.workers[step.w].phase, step.fetch, step.part)
    else Go(Idle)
  }

  lemma LogChange(s: State, step: Step)
    requires Enabled(s, step)
    ensures var e, log, log' := EffectOf(s, step), s.log, After(s, step).log;
      && After(s, step).cfg == s.cfg
      && log'.history == log.history + Optional(e.outcome)
      && log'.rounds == log.rounds + Optional(e.ended)
      && log'.nextLineage == log.nextLineage + One(Taken(s, step).None? && Put(s, step).Some?)
      && var c := if e.outcome.Some? then OnVerified(log.counters, e.outcome.value) else log.counters;
         log'.counters == c.(inflight := log.counters.inflight + e.inflight,
                             backfilled := log'.counters.backfilled, dropped := log'.counters.dropped)
  {
    hide OnVerified, VerifyStep, GapSize, WindowStart, Dropped;
  }

  /** Any other step moves a job unchanged, or puts a new one. */
  lemma Moves(s: State, step: Step)
    requires Enabled(s, step) && !step.Work?
    ensures Taken(s, step).Some? ==>
              && Put(s, step).Some? && Put(s, step).value.job == Taken(s, step).value.job
              && !Taken(s, step).value.stage.InWorker?
              && (Put(s, step).value.stage.InWorker? ==> Put(s, step).value.stage.phase.Begin?)
              && !Put(s, step).value.stage.InTimer?
    ensures Taken(s, step).None? && Put(s, step).Some? ==>
              && (exists h :: Put(s, step).value.job == NewJob(h, s.log.nextLineage, 0))
              && (Put(s, step).value.stage.InMainLoop? || Put(s, step).value.stage.InTask?)
  {
  }

  // ----- the ledgers

  /** Every live job is well formed: attempt numbers, tries, start marks, done flags and timer delays. */
  ghost predicate AllWellFormed(s: State) { Weight(s, Malformed(s.cfg)) == 0 }

  /** Job conservation: every lineage is in exactly one place, or finished as verified. */
  ghost predicate LineageLedger(s: State, l: nat)
  {
    Weight(s, OfLineage(l)) + Rounds(s.log, VerifiedFrom(l, 0)) == One(l < s.log.nextLineage)
  }

  ghost predicate InFlightLedger(s: State) { s.log.counters.inflight == Weight(s, InFlight) }

  /** Outcomes of type b: one per completed round that requires b, one per unfinished round that has recorded it. */
  ghost predicate AttemptLedger(s: State, b: BlobType)
  {
    Outcomes(s.log, Attempts(b)) == Rounds(s.log, Requiring(b)) + Weight(s, Recorded(b))
  }

  ghost predicate RoundLedger(s: State, b: BlobType, l: nat, r: nat)
  {
    && Outcomes(s.log, InRound(b, l, r)) == Rounds(s.log, RequiringIn(b, l, r)) + Weight(s, RecordedIn(b, l, r))
    && Rounds(s.log, Ended(l, r)) == Weight(s, PastRound(l, r)) + Rounds(s.log, VerifiedFrom(l, r))
  }

  lemma OutcomesAppend(h: seq<Outcome>, o: Option<Outcome>, q: OutcomeTally)
    ensures SumBy(h + Optional(o), OutcomeValue(q)) == SumBy(h, OutcomeValue(q)) + CountOutcomeOf(q, o)
  {
    if o.Some? { SumAppend(h, o.value, OutcomeValue(q)); } else { assert h + Optional(o) == h; }
  }

  lemma RoundsAppend(rs: seq<Round>, r: Option<Round>, q: RoundTally)
    ensures SumBy(rs + Optional(r), RoundValue(q)) == SumBy(rs, RoundValue(q)) + CountRoundOf(q, r)
  {
    if r.Some? { SumAppend(rs, r.value, RoundValue(q)); } else { assert rs + Optional(r) == rs; }
  }

  /** In a well-formed state the job a step takes is well formed. */
  lemma TakenWellFormed(s: State, step: Step)
    requires Enabled(s, step) && AllWellFormed(s)
    ensures Taken(s, step).Some? ==> WellFormed(Taken(s, step).value, s.cfg)
  {
    hide WellFormed;
    TakenWithin(s, step, Malformed(s.cfg));
  }

  lemma WellFormedKept(s: State, step: Step)
    requires Enabled(s, step) && AllWellFormed(s)
    ensures AllWellFormed(After(s, step))
  {
    hide After, VerifyStep, Weight;
    Flow(s, step, Malformed(s.cfg));
    LogChange(s, step);
    TakenWellFormed(s, step);
    if step.Work? {
      StretchWellFormed(s.cfg, s.workers[step.w].job, s.workers[step.w].phase, step.fetch, step.part);
    } else {
      Moves(s, step);
    }
  }

  lemma LineageKept(s: State, step: Step, l: nat)
    requires Enabled(s, step) && LineageLedger(s, l)
    ensures LineageLedger(After(s, step), l)
  {
    hide After, VerifyStep, Weight;
    Flow(s, step, OfLineage(l));
    LogChange(s, step);
    RoundsAppend(s.log.rounds, EffectOf(s, step).ended, VerifiedFrom(l, 0));
    if step.Work? {
      StretchRounds(s.cfg, s.workers[step.w].job, s.workers[step.w].phase, step.fetch, step.part, l, 0);
    } else {
      Moves(s, step);
    }
  }

  lemma InFlightKept(s: State, step: Step)
    requires Enabled(s, step) && AllWellFormed(s) && InFlightLedger(s)
    ensures InFlightLedger(After(s, step))
  {
    hide After, VerifyStep, Weight, WellFormed;
    Flow(s, step, InFlight);
    LogChange(s, step);
    TakenWellFormed(s, step);
    if step.Work? {
      StretchRecords(s.cfg, s.workers[step.w].job, s.workers[step.w].phase, step.fetch, step.part, HeaderBlob, 0, 0);
    } else {
      Moves(s, step);
    }
  }

  lemma AttemptKept(s: State, step: Step, b: BlobType)
    requires Enabled(s, step) && AllWellFormed(s) && AttemptLedger(s, b)
    ensures AttemptLedger(After(s, step), b)
  {
    hide After, VerifyStep, Weight, WellFormed, OnVerified;
    Flow(s, step, Recorded(b));
    LogChange(s, step);
    TakenWellFormed(s, step);
    OutcomesAppend(s.log.history, EffectOf(s, step).outcome, Attempts(b));
    RoundsAppend(s.log.rounds, EffectOf(s, step).ended, Requiring(b));
    if step.Work? {
      StretchRecords(s.cfg, s.workers[step.w].job, s.workers[step.w].phase, step.fetch, step.part, b, 0, 0);
    } else {
      Moves(s, step);
    }
  }

  lemma RecordsInRoundKept(s: State, step: Step, b: BlobType, l: nat, r: nat)
    requires Enabled(s, step) && AllWellFormed(s)
    requires Outcomes(s.log, InRound(b, l, r)) == Rounds(s.log, RequiringIn(b, l, r)) + Weight(s, RecordedIn(b, l, r))
    ensures var s' := After(s, step);
            Outcomes(s'.log, InRound(b, l, r)) == Rounds(s'.log, RequiringIn(b, l, r)) + Weight(s', RecordedIn(b, l, r))
  {
    hide After, VerifyStep, Weight, WellFormed, OnVerified;
    Flow(s, step, RecordedIn(b, l, r));
    LogChange(s, step);
    TakenWellFormed(s, step);
    OutcomesAppend(s.log.history, EffectOf(s, step).outcome, InRound(b, l, r));
    RoundsAppend(s.log.rounds, EffectOf(s, step).ended, RequiringIn(b, l, r));
    if step.Work? {
      StretchRecords(s.cfg, s.workers[step.w].job, s.workers[step.w].phase, step.fetch, step.part, b, l, r);
    } else {
      Moves(s, step);
    }
  }

  lemma MovesEndNothing(s: State, step: Step, l: nat, r: nat)
    requires Enabled(s, step) && !step.Work?
    ensures CountOf(PastRound(l, r), Taken(s, step)) == CountOf(PastRound(l, r), Put(s, step))
  {
    Moves(s, step);
  }

  lemma RoundEndsKept(s: State, step: Step, l: nat, r: nat)
    requires Enabled(s, step)
    requires Rounds(s.log, Ended(l, r)) == Weight(s, PastRound(l, r)) + Rounds(s.log, VerifiedFrom(l, r))
    ensures var s' := After(s, step);
            Rounds(s'.log, Ended(l, r)) == Weight(s', PastRound(l, r)) + Rounds(s'.log, VerifiedFrom(l, r))
  {
    hide After, VerifyStep, Weight, OnVerified, Count, CountRound, PutBy;
    Flow(s, step, PastRound(l, r));
    LogChange(s, step);
    RoundsAppend(s.log.rounds, EffectOf(s, step).ended, Ended(l, r));
    RoundsAppend(s.log.rounds, EffectOf(s, step).ended, VerifiedFrom(l, r));
    if step.Work? {
      StretchRounds(s.cfg, s.workers[step.w].job, s.workers[step.w].phase, step.fetch, step.part, l, r);
    } else {
      MovesEndNothing(s, step, l, r);
    }
  }

  lemma RoundKept(s: State, step: Step, b: BlobType, l: nat, r: nat)
    requires Enabled(s, step) && AllWellFormed(s) && RoundLedger(s, b, l, r)
    ensures RoundLedger(After(s, step), b, l, r)
  {
    hide After, AllWellFormed, Weight, Outcomes, Rounds;
    RecordsInRoundKept(s, step, b, l, r);
    RoundEndsKept(s, step, l, r);
  }

  // ----- missing blocks

  ghost predicate About(o: Outcome, b: BlobType, height: int) { o.blob == b && o.height == height }

  /** The position of the last outcome for type b at `height`, or -1. */
  ghost function LastAt(h: seq<Outcome>, b: BlobType, height: int): (i: int)
    ensures -1 <= i < |h|
    ensures i >= 0 ==> About(h[i], b, height)
    ensures forall k :: i < k < |h| ==> !About(h[k], b, height)
  {
    if h == [] then -1
    else if About(h[|h| - 1], b, height) then |h| - 1
    else LastAt(h[..|h| - 1], b, height)
  }

  lemma LastAtGrows(h: seq<Outcome>, o: Option<Outcome>, b: BlobType, height: int)
    ensures LastAt(h + Optional(o), b, height) ==
            if o.Some? && About(o.value, b, height) then |h| else LastAt(h, b, height)
  {
    if o.Some? {
      assert (h + [o.value])[..|h|] == h;
    } else {
      assert h + Optional(o) == h;
    }
  }

  /** If the last outcome for a blob was a failure, the job that recorded it is still there and owes the blob. */
  ghost predicate MissingOwed(s: State, b: BlobType, h: int)
  {
    var i := LastAt(s.log.history, b, h);
    i >= 0 && !s.log.history[i].verified ==> Weight(s, Owing(s.log.history[i])) > 0
  }

  lemma MovesKeepOwing(s: State, step: Step, o: Outcome)
    requires Enabled(s, step) && !step.Work?
    ensures CountOf(Owing(o), Taken(s, step)) <= CountOf(Owing(o), Put(s, step))
  {
    Moves(s, step);
  }

  lemma MissingKept(s: State, step: Step, b: BlobType, h: int)
    requires Enabled(s, step) && AllWellFormed(s) && MissingOwed(s, b, h)
    ensures MissingOwed(After(s, step), b, h)
  {
    hide After, VerifyStep, Weight, WellFormed, Count, PutBy, LastAt, OnVerified;
    LogChange(s, step);
    LastAtGrows(s.log.history, EffectOf(s, step).outcome, b, h);
    var i := LastAt(After(s, step).log.history, b, h);
    if i >= 0 && !After(s, step).log.history[i].verified {
      var o := After(s, step).log.history[i];
      Flow(s, step, Owing(o));
      TakenWellFormed(s, step);
      if step.Work? {
        TakenWithin(s, step, Owing(o));
        StretchKeepsOwing(s.cfg, s.workers[step.w].job, s.workers[step.w].phase, step.fetch, step.part, o);
      } else {
        MovesKeepOwing(s, step, o);
      }
    }
  }
}
