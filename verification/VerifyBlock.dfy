/** verifyBlock, verifyAttempt and onVerified as the code runs them, on a job object and on the metrics
    with their missing-range index, proved to be an uninterrupted run of the step machine. */
module VerifyBlock {
  import opened Options
  import opened Uint64
  import opened Ranges
  import opened MissingIndex
  import opened Backfill
  import opened Verifier

  function Name(b: BlobType): string { if b.HeaderBlob? then "header" else "data" }

  function Get(m: map<string, nat>, t: string): nat { if t in m then m[t] else 0 }

  /** The submission counters by blob type label, missing keys reading as 0. */
  datatype Submissions = Submissions(attempts: map<string, nat>, failures: map<string, nat>,
                                     latestDaHeight: map<string, nat>)

  /** What is published, as the step machine counts it. */
  ghost function CountersOf(u: Submissions, lists: Views, inflight: int, backfilled: nat, dropped: nat): Counters
  {
    Counters(PerBlob(Get(u.attempts, "header"), Get(u.attempts, "data")),
             PerBlob(Get(u.failures, "header"), Get(u.failures, "data")),
             PerBlob(Get(u.latestDaHeight, "header"), Get(u.latestDaHeight, "data")),
             PerBlob(Heights(ListOf(lists, "header")), Heights(ListOf(lists, "data"))),
             inflight, backfilled, dropped)
  }

  /** One submission attempt of type t was counted, as a failure too unless successful, and nothing else. */
  ghost predicate Attempted(u: Submissions, v: Submissions, t: string, success: bool)
  {
    && v.latestDaHeight == u.latestDaHeight
    && (forall k :: k != t ==> Get(v.attempts, k) == Get(u.attempts, k) && Get(v.failures, k) == Get(u.failures, k))
    && Get(v.attempts, t) == Get(u.attempts, t) + 1
    && Get(v.failures, t) == Get(u.failures, t) + (if success then 0 else 1)
  }

  /** The DA height of a known type t is the higher of the two, and nothing else changed. */
  ghost predicate DaHeightSeen(u: Submissions, v: Submissions, t: string, daHeight: nat)
  {
    && v.attempts == u.attempts && v.failures == u.failures
    && (forall k :: k != t ==> Get(v.latestDaHeight, k) == Get(u.latestDaHeight, k))
    && Get(v.latestDaHeight, t) >= Get(u.latestDaHeight, t)
    && (t == "header" || t == "data" ==> Get(v.latestDaHeight, t) >= daHeight)
    && (Get(v.latestDaHeight, t) != Get(u.latestDaHeight, t) ==>
          (t == "header" || t == "data") && Get(v.latestDaHeight, t) == daHeight)
  }

  lemma VerifiedPublished(u: Submissions, v: Submissions, w: Submissions, lists: Views, lists': Views,
                          inflight: int, backfilled: nat, dropped: nat, o: Outcome)
    requires o.verified && Attempted(u, v, Name(o.blob), true) && DaHeightSeen(v, w, Name(o.blob), o.daHeight)
    requires forall t :: t != Name(o.blob) ==> ListOf(lists', t) == ListOf(lists, t)
    requires Removed(ListOf(lists, Name(o.blob)), o.height, ListOf(lists', Name(o.blob)))
    ensures CountersOf(w, lists', inflight, backfilled, dropped)
         == OnVerified(CountersOf(u, lists, inflight, backfilled, dropped), o)
  {
    hide WellFormed, Heights;
  }

  lemma FailurePublished(u: Submissions, v: Submissions, lists: Views, lists': Views,
                         inflight: int, backfilled: nat, dropped: nat, o: Outcome)
    requires !o.verified && Attempted(u, v, Name(o.blob), false)
    requires forall t :: t != Name(o.blob) ==> ListOf(lists', t) == ListOf(lists, t)
    requires Inserted(ListOf(lists, Name(o.blob)), o.height, ListOf(lists', Name(o.blob)))
    ensures CountersOf(v, lists', inflight, backfilled, dropped)
         == OnVerified(CountersOf(u, lists, inflight, backfilled, dropped), o)
  {
    hide WellFormed, Heights;
  }

  /** The part of Metrics the verifier writes, for its one chain id. */
  class Metrics {
    var submissions: Submissions
    var inflightBlocks: int
    var backfilled: nat
    var backfillDropped: nat
    const index: Index

    ghost predicate Valid()
      reads index, index.Footprint()
    {
      index.Valid()
    }

    ghost function View(): Counters
      reads this, index
    {
      CountersOf(submissions, index.lists, inflightBlocks, backfilled, backfillDropped)
    }

    constructor ()
      ensures Valid() && View() == ZeroCounters()
      ensures fresh(index) && index.Footprint() == {}
    {
      submissions := Submissions(map[], map[], map[]);
      inflightBlocks, backfilled, backfillDropped := 0, 0, 0;
      index := new Index();
      new;
      assert Heights([]) == {};
    }

    method RecordSubmissionAttempt(t: string, success: bool)
      modifies this`submissions
      ensures Attempted(old(submissions), submissions, t, success)
    {
      submissions := submissions.(attempts := submissions.attempts[t := Get(submissions.attempts, t) + 1]);
      if !success {
        submissions := submissions.(failures := submissions.failures[t := Get(submissions.failures, t) + 1]);
      }
    }

    method RecordSubmissionDaHeight(t: string, daHeight: nat)
      modifies this`submissions
      ensures DaHeightSeen(old(submissions), submissions, t, daHeight)
    {
      if t != "header" && t != "data" { return; }
      if daHeight > Get(submissions.latestDaHeight, t) {
        submissions := submissions.(latestDaHeight := submissions.latestDaHeight[t := daHeight]);
      }
    }

    method AddInflightBlocks(delta: int)
      modifies this`inflightBlocks
      ensures inflightBlocks == old(inflightBlocks) + delta
    {
      inflightBlocks := inflightBlocks + delta;
    }

    /** onVerified: publish one outcome; o is that outcome with its bookkeeping. */
    method OnVerifiedCall(b: BlobType, height: Height, daHeight: nat, verified: bool, ghost o: Outcome)
      requires Valid()
      requires o == Outcome(b, height, verified, daHeight, o.lineage, o.round)
      modifies this, index, index.Footprint()
      ensures Valid()
      ensures index.Footprint() >= old(index.Footprint()) && fresh(index.Footprint() - old(index.Footprint()))
      ensures View() == OnVerified(old(View()), o)
    {
      hide CountersOf, OnVerified, Inserted, Removed, Index.Valid, Attempted, DaHeightSeen;
      var t := Name(b);
      ghost var u, lists := submissions, index.lists;
      if verified {
        RecordSubmissionAttempt(t, true);
        ghost var v := submissions;
        RecordSubmissionDaHeight(t, daHeight);
        index.RemoveVerifiedBlock(t, height as uint64);
        VerifiedPublished(u, v, submissions, lists, index.lists, inflightBlocks, backfilled, backfillDropped, o);
      } else {
        RecordSubmissionAttempt(t, false);
        index.RecordMissingBlock(t, height as uint64);
        FailurePublished(u, submissions, lists, index.lists, inflightBlocks, backfilled, backfillDropped, o);
      }
    }
  }

  // ----- an uninterrupted run of verifyBlock in the step machine

  datatype Completion = Completion(timer: Option<Timer>, log: Log)

  ghost function StretchesLeft(phase: Phase): nat
  {
    match phase
    case Begin => 9
    case Fetch => 8
    case Part(b, _) => if b.HeaderBlob? then 7 else 6
    case Decide(_) => 5
    case RecordFailure(b) => if b.HeaderBlob? then 4 else 3
    case Exhausted => 2
    case Cooldown => 1
  }

  /** The answer a phase consumes. */
  function Answer(phase: Phase, parts: PerBlob<PartReply>): PartReply
  {
    if phase.Part? then parts.At(phase.blob) else parts.header
  }

  /** All stretches of verifyBlock from a phase to its return, one after the other. */
  ghost function Solo(cfg: Config, j: Job, phase: Phase, fetch: FetchReply, parts: PerBlob<PartReply>, log: Log)
    : Completion
    decreases StretchesLeft(phase)
  {
    var e := VerifyStep(cfg, j, phase, fetch, Answer(phase, parts));
    if e.worker.Busy? && StretchesLeft(e.worker.phase) < StretchesLeft(phase)
    then Solo(cfg, e.worker.job, e.worker.phase, fetch, parts, Publish(log, e))
    else Completion(e.timer, Publish(log, e))
  }

  lemma StretchLeads(cfg: Config, j: Job, phase: Phase, fetch: FetchReply, part: PartReply)
    ensures var e := VerifyStep(cfg, j, phase, fetch, part);
            && !e.worker.Stopped?
            && (e.worker.Busy? ==> e.timer.None? && StretchesLeft(e.worker.phase) < StretchesLeft(phase))
  {
    hide PartVerified, DaHeight;
  }

  /** Solo is what the step machine does when worker w is scheduled until it returns. */
  lemma {:induction false} SoloIsARun(s: State, done: seq<Step>, w: nat, fetch: FetchReply, parts: PerBlob<PartReply>)
    returns (run: seq<Step>)
    requires ValidRun(s, done) && w < |Run(s, done).workers| && Run(s, done).workers[w].Busy?
    ensures ValidRun(s, run) && done <= run
    ensures forall i :: |done| <= i < |run| ==> run[i].Work? && run[i].w == w
    ensures var now := Run(s, done);
            var c := Solo(now.cfg, now.workers[w].job, now.workers[w].phase, fetch, parts, now.log);
            Run(s, run)
            == now.(workers := now.workers[w := Idle], timers := now.timers + Optional(c.timer), log := c.log)
    decreases StretchesLeft(Run(s, done).workers[w].phase)
  {
    hide OnVerified, Publish, VerifyStep, StretchesLeft;
    var now := Run(s, done);
    var step := Work(w, fetch, Answer(now.workers[w].phase, parts));
    var more := done + [step];
    assert more[..|done|] == done;
    var e := VerifyStep(now.cfg, now.workers[w].job, now.workers[w].phase, fetch, step.part);
    StretchLeads(now.cfg, now.workers[w].job, now.workers[w].phase, fetch, step.part);
    if e.worker.Busy? {
      run := SoloIsARun(s, more, w, fetch, parts);
      assert now.workers[w := e.worker][w := Idle] == now.workers[w := Idle];
      assert now.timers + Optional(None) == now.timers;
    } else {
      run := more;
    }
  }

  // ----- the code

  /** job, as verifyBlock holds it. */
  class PendingJob {
    const header: Header
    var attempt: nat
    var started: bool
    var headerDone: bool
    var dataDone: bool

    constructor (header: Header)
      ensures this.header == header && attempt == 0 && !started && !headerDone && !dataDone
    {
      this.header := header;
      attempt, started, headerDone, dataDone := 0, false, false, false;
    }

    /** The machine's job, less its bookkeeping. */
    ghost predicate Is(g: Job)
      reads this
    {
      && g.header == header && g.attempt == attempt && g.started == started
      && g.headerDone == headerDone && g.dataDone == dataDone
    }
  }

  /** A job value handed to enqueueAfter. */
  datatype Requeue = Requeue(header: Header, attempt: nat, started: bool, headerDone: bool, dataDone: bool, delay: nat)

  ghost predicate SameRequeue(r: Option<Requeue>, t: Option<Timer>)
  {
    match t
    case None => r.None?
    case Some(t) =>
      var j := t.job;
      r == Some(Requeue(j.header, j.attempt, j.started, j.headerDone, j.dataDone, t.delay))
  }

  /** The blob is verified exactly when it is submitted, the time of its DA block is known and it was found
      there, or is an empty data blob; exactly then one verified outcome is published, under the DA height
      that ev-node reports for that blob. */
  ghost predicate PartJudged(before: Counters, after: Counters, header: Header, b: BlobType, res: BlockResult,
                             reply: PartReply, g: Job, ok: bool)
  {
    match b
    case HeaderBlob =>
      && (ok <==> res.headerDaHeight != 0 && reply.timestampOk && reply.verdict.Match?)
      && after == if ok
                  then OnVerified(before, Outcome(b, header.height, true, res.headerDaHeight, g.lineage, g.round))
                  else before
    case DataBlob =>
      && (ok <==> res.dataDaHeight != 0 && reply.timestampOk && (reply.verdict.Match? || res.dataBlobEmpty))
      && after == if ok
                  then OnVerified(before, Outcome(b, header.height, true, res.dataDaHeight, g.lineage, g.round))
                  else before
  }

  /** verifyPart for one blob: on a match, record it as verified. */
  method VerifyPart(m: Metrics, header: Header, b: BlobType, res: BlockResult, reply: PartReply, ghost g: Job)
    returns (ok: bool)
    requires m.Valid() && g.header == header
    modifies m, m.index, m.index.Footprint()
    ensures m.Valid()
    ensures m.index.Footprint() >= old(m.index.Footprint())
    ensures fresh(m.index.Footprint() - old(m.index.Footprint()))
    ensures PartJudged(old(m.View()), m.View(), header, b, res, reply, g, ok)
    ensures ok == PartVerified(res, b, reply)
    ensures m.View() == if ok then OnVerified(old(m.View()), OutcomeOf(g, b, true, DaHeight(res, b))) else old(m.View())
  {
    hide Metrics.Valid, OnVerified, CountersOf;
    if DaHeight(res, b) == 0 { return false; }
    if !reply.timestampOk { return false; }
    var verified := b.DataBlob? && res.dataBlobEmpty;
    if !verified {
      if reply.verdict.CallFailed? { return false; }
      verified := reply.verdict.Match?;
    }
    if !verified { return false; }
    m.OnVerifiedCall(b, header.height, DaHeight(res, b), true, OutcomeOf(g, b, true, DaHeight(res, b)));
    return true;
  }

  lemma PartStretch(cfg: Config, g: Job, b: BlobType, res: BlockResult, fetch: FetchReply, reply: PartReply, log: Log,
                    ok: bool)
    requires ok == (g.Requires(b) && !g.Done(b) && PartVerified(res, b, reply))
    ensures var e := VerifyStep(cfg, g, Part(b, res), fetch, reply);
            && e.worker.Busy? && e.worker.job == (if ok then g.Finish(b) else g)
            && e.worker.phase == (if b.HeaderBlob? then Part(DataBlob, res) else Decide(e.worker.job.AllDone()))
            && Publish(log, e).counters ==
               (if ok then OnVerified(log.counters, OutcomeOf(g, b, true, DaHeight(res, b))) else log.counters)
  {
  }

  lemma AttemptOpens(cfg: Config, g: Job, fetch: FetchReply, parts: PerBlob<PartReply>, log: Log)
    requires fetch.FetchOk?
    ensures var log' := Publish(log, Go(Busy(g, Part(HeaderBlob, fetch.res))));
            && Solo(cfg, g, Fetch, fetch, parts, log) == Solo(cfg, g, Part(HeaderBlob, fetch.res), fetch, parts, log')
            && log'.counters == log.counters
  {
  }

  lemma SoloPart(cfg: Config, g: Job, b: BlobType, res: BlockResult, fetch: FetchReply, parts: PerBlob<PartReply>,
                 log: Log)
    ensures var e := VerifyStep(cfg, g, Part(b, res), fetch, parts.At(b));
            && e.worker.Busy?
            && Solo(cfg, g, Part(b, res), fetch, parts, log)
               == Solo(cfg, e.worker.job, e.worker.phase, fetch, parts, Publish(log, e))
  {
    hide PartVerified, Publish;
  }

  /** verifyAttempt: both blobs, header first. g and log follow the step machine alongside. */
  method VerifyAttempt(m: Metrics, j: PendingJob, hasTransactions: bool, fetch: FetchReply, parts: PerBlob<PartReply>,
                       ghost cfg: Config, ghost g: Job, ghost log: Log)
    returns (complete: bool, ghost g': Job, ghost log': Log)
    requires m.Valid() && j.Is(g) && m.View() == log.counters && hasTransactions == j.header.hasTransactions
    modifies m, j, m.index, m.index.Footprint()
    ensures m.Valid()
    ensures m.index.Footprint() >= old(m.index.Footprint())
    ensures fresh(m.index.Footprint() - old(m.index.Footprint()))
    ensures j.Is(g') && m.View() == log'.counters
    ensures complete ==> g'.AllDone()
    ensures Solo(cfg, g, Fetch, fetch, parts, log) == Solo(cfg, g', Decide(complete), fetch, parts, log')
  {
    hide Metrics.Valid, CountersOf, PartVerified, PartJudged, OnVerified;
    if fetch.FetchError? { return false, g, Publish(log, Go(Busy(g, Decide(false)))); }
    hide VerifyStep, Publish, Solo;
    var res := fetch.res;
    ghost var headerReply, dataReply := parts.header, parts.data;
    g', log' := g, Publish(log, Go(Busy(g, Part(HeaderBlob, res))));
    AttemptOpens(cfg, g, fetch, parts, log);
    var ok := false;
    if !j.headerDone {
      ok := VerifyPart(m, j.header, HeaderBlob, res, parts.header, g');
      j.headerDone := ok;
    }
    PartStretch(cfg, g', HeaderBlob, res, fetch, headerReply, log', ok);
    SoloPart(cfg, g', HeaderBlob, res, fetch, parts, log');
    ghost var e := VerifyStep(cfg, g', Part(HeaderBlob, res), fetch, headerReply);
    g', log' := e.worker.job, Publish(log', e);
    ok := false;
    if hasTransactions && !j.dataDone {
      ok := VerifyPart(m, j.header, DataBlob, res, parts.data, g');
      j.dataDone := ok;
    }
    PartStretch(cfg, g', DataBlob, res, fetch, dataReply, log', ok);
    SoloPart(cfg, g', DataBlob, res, fetch, parts, log');
    e := VerifyStep(cfg, g', Part(DataBlob, res), fetch, dataReply);
    g', log' := e.worker.job, Publish(log', e);
    complete := j.headerDone && (!hasTransactions || j.dataDone);
  }

  lemma SoloBegins(cfg: Config, g: Job, fetch: FetchReply, parts: PerBlob<PartReply>, log: Log) returns (log': Log)
    ensures Solo(cfg, g, Begin, fetch, parts, log)
         == Solo(cfg, g.(started := true, tries := g.tries + 1), Fetch, fetch, parts, log')
    ensures log'.counters == log.counters.(inflight := log.counters.inflight + if g.started then 0 else 1)
  {
    log' := Publish(log, VerifyStep(cfg, g, Begin, fetch, parts.header));
  }

  lemma SoloDecides(cfg: Config, g: Job, complete: bool, fetch: FetchReply, parts: PerBlob<PartReply>, log: Log)
    returns (log': Log)
    ensures complete ==>
              && Solo(cfg, g, Decide(complete), fetch, parts, log) == Completion(None, log')
              && log'.counters == log.counters.(inflight := log.counters.inflight - 1)
    ensures !complete && g.attempt + 1 < |cfg.retryIntervals| ==>
              && Solo(cfg, g, Decide(complete), fetch, parts, log)
                 == Completion(Some(Timer(g.(attempt := g.attempt + 1), cfg.retryIntervals[g.attempt + 1])), log')
              && log'.counters == log.counters
    ensures !complete && g.attempt + 1 >= |cfg.retryIntervals| ==>
              && Solo(cfg, g, Decide(complete), fetch, parts, log)
                 == Solo(cfg, g, RecordFailure(HeaderBlob), fetch, parts, log')
              && log'.counters == log.counters
  {
    log' := Publish(log, VerifyStep(cfg, g, Decide(complete), fetch, parts.header));
  }

  lemma SoloFails(cfg: Config, g: Job, b: BlobType, fetch: FetchReply, parts: PerBlob<PartReply>, log: Log)
    returns (log': Log)
    ensures Solo(cfg, g, RecordFailure(b), fetch, parts, log)
         == Solo(cfg, g, if b.HeaderBlob? then RecordFailure(DataBlob) else Exhausted, fetch, parts, log')
    ensures log'.counters == if g.Requires(b) && !g.Done(b)
                             then OnVerified(log.counters, OutcomeOf(g, b, false, 0)) else log.counters
  {
    log' := Publish(log, VerifyStep(cfg, g, RecordFailure(b), fetch, parts.header));
  }

  lemma SoloExhausts(cfg: Config, g: Job, fetch: FetchReply, parts: PerBlob<PartReply>, log: Log) returns (log': Log)
    ensures Solo(cfg, g, Exhausted, fetch, parts, log) == Completion(Some(Timer(g.Afresh(), cfg.cooldown)), log')
    ensures log'.counters == log.counters.(inflight := log.counters.inflight - 1)
  {
    var e := VerifyStep(cfg, g, Exhausted, fetch, parts.header);
    log' := Publish(Publish(log, e), VerifyStep(cfg, g.Afresh(), Cooldown, fetch, parts.header));
    assert Solo(cfg, g, Exhausted, fetch, parts, log) == Solo(cfg, g.Afresh(), Cooldown, fetch, parts, Publish(log, e));
  }

  /** Retries exhausted: record what is still unverified and re-queue after the cooldown. */
  method GiveUp(cfg: Config, m: Metrics, j: PendingJob, fetch: FetchReply, parts: PerBlob<PartReply>,
                ghost g: Job, ghost log: Log)
    returns (requeue: Option<Requeue>)
    requires m.Valid() && j.Is(g) && m.View() == log.counters
    modifies m, m.index, m.index.Footprint()
    ensures m.Valid()
    ensures m.View() == Solo(cfg, g, RecordFailure(HeaderBlob), fetch, parts, log).log.counters
    ensures SameRequeue(requeue, Solo(cfg, g, RecordFailure(HeaderBlob), fetch, parts, log).timer)
  {
    hide Metrics.Valid, OnVerified, Solo, Heights, ListOf;
    ghost var log1 := SoloFails(cfg, g, HeaderBlob, fetch, parts, log);
    ghost var log2 := SoloFails(cfg, g, DataBlob, fetch, parts, log1);
    ghost var log3 := SoloExhausts(cfg, g, fetch, parts, log2);
    if !j.headerDone {
      m.OnVerifiedCall(HeaderBlob, j.header.height, 0, false, OutcomeOf(g, HeaderBlob, false, 0));
    }
    if j.header.hasTransactions && !j.dataDone {
      m.OnVerifiedCall(DataBlob, j.header.height, 0, false, OutcomeOf(g, DataBlob, false, 0));
    }
    m.AddInflightBlocks(-1);
    return Some(Requeue(j.header, 0, false, false, false, cfg.cooldown));
  }

  /** verifyBlock: one attempt, then done, a retry timer, or the failure records and a cooldown timer.
      It does to the metrics, and hands to enqueueAfter, exactly what the step machine's uninterrupted
      run from Begin does. */
  method RunVerifyBlock(cfg: Config, m: Metrics, j: PendingJob, fetch: FetchReply, parts: PerBlob<PartReply>,
                        ghost g: Job, ghost log: Log)
    returns (requeue: Option<Requeue>)
    requires m.Valid() && j.Is(g) && m.View() == log.counters
    modifies m, j, m.index, m.index.Footprint()
    ensures m.Valid()
    ensures m.View() == Solo(cfg, g, Begin, fetch, parts, log).log.counters
    ensures SameRequeue(requeue, Solo(cfg, g, Begin, fetch, parts, log).timer)
  {
    hide Metrics.Valid, OnVerified, Solo, Heights, ListOf;
    var hasTransactions := j.header.hasTransactions;
    ghost var log1 := SoloBegins(cfg, g, fetch, parts, log);
    if !j.started {
      j.started := true;
      m.AddInflightBlocks(1);
    }
    ghost var g1 := g.(started := true, tries := g.tries + 1);
    var complete;
    ghost var g2, log2;
    complete, g2, log2 := VerifyAttempt(m, j, hasTransactions, fetch, parts, cfg, g1, log1);
    ghost var log3 := SoloDecides(cfg, g2, complete, fetch, parts, log2);
    if complete {
      m.AddInflightBlocks(-1);
      return None;
    }
    var next := j.attempt + 1;
    if next < |cfg.retryIntervals| {
      j.attempt := next;
      return Some(Requeue(j.header, j.attempt, j.started, j.headerDone, j.dataDone, cfg.retryIntervals[next]));
    }
    requeue := GiveUp(cfg, m, j, fetch, parts, g2, log3);
  }
}
