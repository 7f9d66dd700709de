/** The exporter of pkg/exporters/verifier/verifier.go as a step machine: main loop, backfill tasks,
    bounded queue, workers, re-queue timers and cancellation. Every answer of an RPC, every scheduling
    choice and every select choice is part of the step.

    Jobs carry bookkeeping that the source does not have and that no step branches on: a lineage number
    given when a header is first turned into a job, the number of the verification round, and the
    number of attempts begun in that round. `received`, `history`, `rounds` and `lost` in the log and
    `enqueued` and `skipped` in a backfill are bookkeeping too. */
module Verifier {
  import opened Options
  import opened Uint64
  import opened HeaderStream
  import opened Backfill

  datatype BlobType = HeaderBlob | DataBlob

  datatype PerBlob<T> = PerBlob(header: T, data: T) {
    function At(b: BlobType): T { if b.HeaderBlob? then header else data }
    function With(b: BlobType, v: T): PerBlob<T> {
      if b.HeaderBlob? then this.(header := v) else this.(data := v)
    }
  }

  /** honestNode is not a setting: it restricts the runs to those in which the node answers a backfill's
      request with the header of the height asked for, or not at all. */
  datatype Config = Config(workers: nat, retryIntervals: seq<nat>, cooldown: nat, honestNode: bool)

  // ----- jobs

  function NewJob(header: Header, lineage: nat, round: nat): Job
  {
    Job(header, 0, false, false, false, lineage, round, 0)
  }

  datatype Job = Job(header: Header, attempt: nat, started: bool, headerDone: bool, dataDone: bool,
                     lineage: nat, round: nat, tries: nat)
  {
    /** Blocks without transactions only have their header verified. */
    predicate Requires(b: BlobType) { b.HeaderBlob? || header.hasTransactions }
    predicate Done(b: BlobType) { if b.HeaderBlob? then headerDone else dataDone }
    predicate AllDone() { headerDone && (!header.hasTransactions || dataDone) }
    function Finish(b: BlobType): Job {
      if b.HeaderBlob? then this.(headerDone := true) else this.(dataDone := true)
    }
    /** job{header: header}, for the round after this one. */
    function Afresh(): Job { NewJob(header, lineage, round + 1) }
  }

  // ----- one verification attempt

  /** What ev-node says about a block. */
  datatype BlockResult = BlockResult(headerDaHeight: nat, dataDaHeight: nat, dataBlobEmpty: bool)

  datatype Verdict = CallFailed | NoMatch | Match

  /** What the DA client answers for one blob: its block timestamp and the blob comparison. */
  datatype PartReply = PartReply(timestampOk: bool, verdict: Verdict)

  function DaHeight(res: BlockResult, b: BlobType): nat
  {
    if b.HeaderBlob? then res.headerDaHeight else res.dataDaHeight
  }

  /** verifyPart: submitted, timestamp known, and the blob matches; an empty data blob needs no comparison. */
  predicate PartVerified(res: BlockResult, b: BlobType, reply: PartReply)
  {
    DaHeight(res, b) != 0 && reply.timestampOk && (reply.verdict.Match? || (b.DataBlob? && res.dataBlobEmpty))
  }

  // ----- metrics

  datatype Outcome = Outcome(blob: BlobType, height: Height, verified: bool, daHeight: nat, lineage: nat, round: nat)

  datatype Counters = Counters(attempts: PerBlob<nat>, failures: PerBlob<nat>, latestDaHeight: PerBlob<nat>,
                               missing: PerBlob<set<int>>, inflight: int, backfilled: nat, dropped: nat)

  /** onVerified: attempt and failure counters, highest DA height, and the missing set. */
  function OnVerified(c: Counters, o: Outcome): Counters
  {
    var b := o.blob;
    var c1 := c.(attempts := c.attempts.With(b, c.attempts.At(b) + 1));
    if o.verified then
      c1.(latestDaHeight := if o.daHeight > c.latestDaHeight.At(b)
                            then c.latestDaHeight.With(b, o.daHeight) else c.latestDaHeight,
          missing := c.missing.With(b, c.missing.At(b) - {o.height}))
    else
      c1.(failures := c.failures.With(b, c.failures.At(b) + 1),
          missing := c.missing.With(b, c.missing.At(b) + {o.height}))
  }

  function OutcomeOf(j: Job, b: BlobType, verified: bool, daHeight: nat): Outcome
  {
    Outcome(b, j.header.height, verified, daHeight, j.lineage, j.round)
  }

  // ----- the state

  /** Where verifyBlock stands. */
  datatype Phase =
    | Begin
    | Fetch
    | Part(blob: BlobType, res: BlockResult)
    | Decide(complete: bool)
    | RecordFailure(blob: BlobType)
    | Exhausted
    | Cooldown

  datatype Worker = Idle | Busy(job: Job, phase: Phase) | Stopped

  datatype Timer = Timer(job: Job, delay: nat)

  datatype MainLoop = Listening | Sending(job: Job) | Reconnecting | Exited

  datatype Task = Task(gap: Interval, begun: bool, next: int, dropped: nat, enqueued: seq<int>, skipped: seq<int>,
                       pending: Option<Job>, stopped: bool)

  /** A completed round: all required parts verified, or retries exhausted. */
  datatype Round = Round(header: Header, lineage: nat, round: nat, verified: bool)

  /** What was published and what happened, in order. */
  datatype Log = Log(
    counters: Counters,
    nextLineage: nat,
    received: seq<Height>,
    history: seq<Outcome>,
    rounds: seq<Round>,
    lost: seq<Job>)
  {
    /** A job given up because the context is done. */
    function Lose(j: Job): Log { this.(lost := lost + [j]) }
  }

  datatype State = State(
    cfg: Config,
    main: MainLoop,
    lastHeight: Height,
    queue: seq<Job>,
    workers: seq<Worker>,
    timers: seq<Timer>,
    tasks: seq<Task>,
    cancelled: bool,
    log: Log)
  {
    predicate QueueHasSpace() { |queue| < 2 * cfg.workers }
  }

  function ZeroCounters(): Counters
  {
    Counters(PerBlob(0, 0), PerBlob(0, 0), PerBlob(0, 0), PerBlob({}, {}), 0, 0, 0)
  }

  function Init(cfg: Config): State
  {
    State(cfg, Listening, 0, [], seq(cfg.workers, _ => Idle), [], [], false,
          Log(ZeroCounters(), 0, [], [], [], []))
  }

  // ----- the steps

  datatype FetchReply = FetchOk(res: BlockResult) | FetchError

  datatype HeaderReply = GotHeader(header: Header) | NoHeader

  datatype Step =
    | Receive(header: Header)
    | MainEnqueue
    | MainExit
    | SubscriptionLost
    | SubscriptionRestored
    | TaskBegin(k: nat)
    | TaskFetch(k: nat, reply: HeaderReply)
    | TaskEnqueue(k: nat)
    | TaskCancelled(k: nat)
    | TimerFire(i: nat)
    | TimerCancelled(i: nat)
    | Dequeue(w: nat)
    | WorkerExit(w: nat)
    | Work(w: nat, fetch: FetchReply, part: PartReply)
    | Cancel

  predicate TaskRunning(t: Task) { !t.stopped && (!t.begun || t.next <= t.gap.to) }

  predicate Enabled(s: State, step: Step)
  {
    match step
    case Receive(_) => s.main.Listening?
    case MainEnqueue => s.main.Sending? && s.QueueHasSpace()
    case MainExit => s.cancelled && !s.main.Exited?
    case SubscriptionLost => s.main.Listening?
    case SubscriptionRestored => s.main.Reconnecting?
    case TaskBegin(k) => k < |s.tasks| && !s.tasks[k].begun
    case TaskFetch(k, reply) =>
      && k < |s.tasks| && s.tasks[k].begun && TaskRunning(s.tasks[k]) && s.tasks[k].pending.None?
      && (reply.NoHeader? ==> !s.cancelled)
      && (reply.GotHeader? && s.cfg.honestNode ==> reply.header.height == s.tasks[k].next)
    case TaskEnqueue(k) => k < |s.tasks| && !s.tasks[k].stopped && s.tasks[k].pending.Some? && s.QueueHasSpace()
    case TaskCancelled(k) => s.cancelled && k < |s.tasks| && s.tasks[k].begun && TaskRunning(s.tasks[k])
    case TimerFire(i) => i < |s.timers| && s.QueueHasSpace()
    case TimerCancelled(i) => s.cancelled && i < |s.timers|
    case Dequeue(w) => w < |s.workers| && s.workers[w].Idle? && s.queue != []
    case WorkerExit(w) => s.cancelled && w < |s.workers| && s.workers[w].Idle?
    case Work(w, _, _) => w < |s.workers| && s.workers[w].Busy?
    case Cancel => true
  }

  /** ExportMetrics' loop. A header opens a backfill when heights were skipped; its job then waits for the queue. */
  function MainStep(s: State, step: Step): State
    requires Enabled(s, step)
  {
    match step
    case Receive(header) =>
      var newTasks := if OpensGap(s.lastHeight, header.height)
                    then [Task(GapBelow(s.lastHeight, header.height), false, 0, 0, [], [], None, false)] else [];
      s.(tasks := s.tasks + newTasks,
         lastHeight := Max(s.lastHeight, header.height),
         main := Sending(NewJob(header, s.log.nextLineage, 0)),
         log := s.log.(received := s.log.received + [header.height], nextLineage := s.log.nextLineage + 1))
    case MainEnqueue => s.(main := Listening, queue := s.queue + [s.main.job])
    case MainExit => s.(main := Exited, log := if s.main.Sending? then s.log.Lose(s.main.job) else s.log)
    case SubscriptionLost => s.(main := Reconnecting)
    case SubscriptionRestored => s.(main := Listening)
    case _ => s
  }

  predicate IsTaskStep(step: Step)
  {
    step.TaskBegin? || step.TaskFetch? || step.TaskEnqueue? || step.TaskCancelled?
  }

  function TaskMove(t: Task, step: Step, lineage: nat): Task
    requires IsTaskStep(step) && (step.TaskEnqueue? ==> t.pending.Some?)
  {
    match step
    case TaskBegin(_) => t.(begun := true, next := WindowStart(t.gap), dropped := Dropped(t.gap))
    case TaskFetch(_, GotHeader(header)) => t.(pending := Some(NewJob(header, lineage, 0)))
    case TaskFetch(_, NoHeader) => t.(skipped := t.skipped + [t.next], next := t.next + 1)
    case TaskEnqueue(_) => 
      t.(pending := None, enqueued := t.enqueued + [t.pending.value.header.height], next := t.next + 1)
    case TaskCancelled(_) => t.(pending := None, stopped := true)
  }

  function TaskLog(log: Log, t: Task, step: Step): Log
    requires IsTaskStep(step)
  {
    match step
    case TaskBegin(_) => log.(counters := log.counters.(dropped := log.counters.dropped + Dropped(t.gap)))
    case TaskFetch(_, reply) => if reply.GotHeader? then log.(nextLineage := log.nextLineage + 1) else log
    case TaskEnqueue(_) => log.(counters := log.counters.(backfilled := log.counters.backfilled + 1))
    case TaskCancelled(_) => if t.pending.Some? then log.Lose(t.pending.value) else log
  }

  /** backfill, started at its gap: drop the oldest heights, then fetch and enqueue one by one. */
  function TaskStep(s: State, step: Step): State
    requires Enabled(s, step) && IsTaskStep(step)
  {
    var t := s.tasks[step.k];
    s.(tasks := s.tasks[step.k := TaskMove(t, step, s.log.nextLineage)],
       queue := if step.TaskEnqueue? then s.queue + [t.pending.value] else s.queue,
       log := TaskLog(s.log, t, step))
  }

  /** Timers deliver to the queue, workers take from it. */
  function PoolStep(s: State, step: Step): State
    requires Enabled(s, step)
  {
    match step
    case TimerFire(i) =>
      s.(timers := s.timers[..i] + s.timers[i + 1..], queue := s.queue + [s.timers[i].job])
    case TimerCancelled(i) =>
      s.(timers := s.timers[..i] + s.timers[i + 1..], log := s.log.Lose(s.timers[i].job))
    case Dequeue(w) =>
      s.(queue := s.queue[1..], workers := s.workers[w := Busy(s.queue[0], Begin)])
    case WorkerExit(w) => s.(workers := s.workers[w := Stopped])
    case _ => s
  }

  function After(s: State, step: Step): State
    requires Enabled(s, step)
  {
    match step
    case Receive(_) => MainStep(s, step)
    case MainEnqueue => MainStep(s, step)
    case MainExit => MainStep(s, step)
    case SubscriptionLost => MainStep(s, step)
    case SubscriptionRestored => MainStep(s, step)
    case TaskBegin(_) => TaskStep(s, step)
    case TaskFetch(_, _) => TaskStep(s, step)
    case TaskEnqueue(_) => TaskStep(s, step)
    case TaskCancelled(_) => TaskStep(s, step)
    case Work(w, fetch, part) => Apply(s, w, VerifyStep(s.cfg, s.workers[w].job, s.workers[w].phase, fetch, part))
    case Cancel => s.(cancelled := true)
    case _ => PoolStep(s, step)
  }

  // ----- verifyBlock

  /** What one stretch of verifyBlock does: where the worker goes, and the timer, outcome, in-flight change
      and completed round it leaves behind. */
  datatype Effect = Effect(worker: Worker, timer: Option<Timer>, outcome: Option<Outcome>, inflight: int,
                           ended: Option<Round>)

  function Go(worker: Worker): Effect { Effect(worker, None, None, 0, None) }

  /** verifyBlock with verifyAttempt inside it, from one shared effect to the next. */
  function VerifyStep(cfg: Config, j: Job, phase: Phase, fetch: FetchReply, part: PartReply): Effect
  {
    match phase
    case Begin =>
      Go(Busy(j.(started := true, tries := j.tries + 1), Fetch)).(inflight := if j.started then 0 else 1)
    case Fetch =>
      (match fetch
       case FetchOk(res) => Go(Busy(j, Part(HeaderBlob, res)))
       case FetchError => Go(Busy(j, Decide(false))))
    case Part(b, res) =>
      var ok := j.Requires(b) && !j.Done(b) && PartVerified(res, b, part);
      var j' := if ok then j.Finish(b) else j;
      Go(Busy(j', if b.HeaderBlob? then Part(DataBlob, res) else Decide(j'.AllDone())))
      .(outcome := if ok then Some(OutcomeOf(j, b, true, DaHeight(res, b))) else None)
    case Decide(complete) =>
      if complete then
        Effect(Idle, None, None, -1, Some(Round(j.header, j.lineage, j.round, true)))
      else if j.attempt + 1 < |cfg.retryIntervals| then
        Go(Idle).(timer := Some(Timer(j.(attempt := j.attempt + 1), cfg.retryIntervals[j.attempt + 1])))
      else
        Go(Busy(j, RecordFailure(HeaderBlob)))
    case RecordFailure(b) =>
      Go(Busy(j, if b.HeaderBlob? then RecordFailure(DataBlob) else Exhausted))
      .(outcome := if j.Requires(b) && !j.Done(b) then Some(OutcomeOf(j, b, false, 0)) else None)
    case Exhausted =>
      Effect(Busy(j.Afresh(), Cooldown), None, None, -1, Some(Round(j.header, j.lineage, j.round, false)))
    case Cooldown =>
      Go(Idle).(timer := Some(Timer(j, cfg.cooldown)))
  }

  function Optional<T>(o: Option<T>): seq<T> { if o.Some? then [o.value] else [] }

  function Publish(log: Log, e: Effect): Log
  {
    log.(counters := (if e.outcome.Some? then OnVerified(log.counters, e.outcome.value) else log.counters)
                     .(inflight := log.counters.inflight + e.inflight),
         history := log.history + Optional(e.outcome),
         rounds := log.rounds + Optional(e.ended))
  }

  function Apply(s: State, w: nat, e: Effect): State
    requires w < |s.workers|
  {
    s.(workers := s.workers[w := e.worker], timers := s.timers + Optional(e.timer), log := Publish(s.log, e))
  }

  // ----- runs

  ghost function Run(s: State, steps: seq<Step>): State
    requires ValidRun(s, steps)
    decreases |steps|, 1
  {
    if steps == [] then s else After(Run(s, steps[..|steps| - 1]), steps[|steps| - 1])
  }

  ghost predicate ValidRun(s: State, steps: seq<Step>)
    decreases |steps|, 0
  {
    steps == [] || (ValidRun(s, steps[..|steps| - 1]) && Enabled(Run(s, steps[..|steps| - 1]), steps[|steps| - 1]))
  }

  /** Some run leads from s to end. */
  ghost predicate LeadsTo(s: State, end: State)
  {
    exists run :: ValidRun(s, run) && end == Run(s, run)
  }

  ghost predicate Reachable(cfg: Config, s: State) { LeadsTo(Init(cfg), s) }
}
