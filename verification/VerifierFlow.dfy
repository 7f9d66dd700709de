/** Where the jobs are. Each step takes at most one job out of one place and puts at most one into
    another; so the weight of all live jobs, under any way of counting them, changes by exactly these two.
    Every conservation law of the verifier is an instance. */
module VerifierFlow {
  import opened Options
  import opened HeaderStream
  import opened Backfill
  import opened Sums
  import opened Verifier

  datatype Stage = InMainLoop | InTask | InQueue | InTimer(delay: nat) | InWorker(phase: Phase) | GivenUp

  /** A job and where it is; GivenUp only after cancellation. */
  datatype Token = Token(job: Job, stage: Stage)

  /** What is being counted. */
  datatype Tally =
    | OfLineage(lineage: nat)
    | AtRound(lineage: nat, round: nat)
    | PastRound(lineage: nat, round: nat)
    | InFlight
    | Recorded(blob: BlobType)
    | RecordedIn(blob: BlobType, lineage: nat, round: nat)
    | Owing(failed: Outcome)
    | Malformed(cfg: Config)
    | Live
    | OfHeight(height: int)
    | OfHeader(header: Header)
    | Exactly(token: Token)
    | Nobody
    | Effort

  /** The round's outcome for b has been recorded already. */
  ghost predicate HasRecorded(t: Token, b: BlobType)
  {
    && t.job.Requires(b)
    && (t.job.Done(b)
        || (t.stage.InWorker? && t.stage.phase == RecordFailure(DataBlob) && b.HeaderBlob?)
        || (t.stage.InWorker? && t.stage.phase.Exhausted?))
  }

  /** The job will verify b again. */
  ghost predicate Owes(t: Token, b: BlobType) { t.job.Requires(b) && !t.job.Done(b) }

  /** The very job whose failure o is: past that record, in the same round or a later one, it will verify
      the blob again. */
  ghost predicate PastFailure(t: Token, o: Outcome)
  {
    && t.job.lineage == o.lineage && t.job.header.height == o.height && Owes(t, o.blob)
    && (t.job.round > o.round || (t.job.round == o.round && HasRecorded(t, o.blob)))
  }

  /** The phases of verifyBlock in which its attempt has begun. */
  ghost predicate InAttempt(t: Token)
  {
    t.stage.InWorker? && !t.stage.phase.Begin? && !t.stage.phase.Cooldown?
  }

  ghost function MaxTries(cfg: Config): nat
  {
    if |cfg.retryIntervals| == 0 then 1 else |cfg.retryIntervals|
  }

  /** A job is either fresh or waiting for retry number `attempt`; it has begun one attempt more than its
      number while a worker is at it. Its data flag is set only if it has data; outside the end of an
      attempt some required part is unverified. The main loop and the backfills only hold jobs of a first
      round. A waiting retry waits for its own interval. */
  ghost predicate WellFormed(t: Token, cfg: Config)
  {
    var j := t.job;
    && j.attempt < MaxTries(cfg)
    && j.tries == (if InAttempt(t) then j.attempt + 1 else j.attempt)
    && j.started == (j.tries > 0)
    && (j.dataDone ==> j.header.hasTransactions)
    && (j.attempt == 0 && !InAttempt(t) ==> !j.headerDone && !j.dataDone)
    && match t.stage
       case InTimer(delay) =>
         && !j.AllDone()
         && delay == (if j.attempt == 0 then cfg.cooldown
                      else if j.attempt < |cfg.retryIntervals| then cfg.retryIntervals[j.attempt] else 0)
       case InMainLoop => j.round == 0 && !j.AllDone()
       case InTask => j.round == 0 && !j.AllDone()
       case InWorker(Decide(complete)) => complete == j.AllDone()
       case InWorker(Part(DataBlob, _)) => true
       case InWorker(Cooldown) => j.attempt == 0 && !j.AllDone()
       case InWorker(RecordFailure(_)) => !j.AllDone() && j.attempt + 1 >= |cfg.retryIntervals|
       case InWorker(Exhausted) => !j.AllDone() && j.attempt + 1 >= |cfg.retryIntervals|
       case _ => !j.AllDone()
  }

  ghost function One(b: bool): nat { if b then 1 else 0 }

  /** Part b needs no DA height or has one. */
  ghost predicate Submitted(j: Job, b: BlobType, res: BlockResult)
  {
    !j.Requires(b) || j.Done(b) || DaHeight(res, b) != 0
  }

  /** How many steps a job still needs once every answer is favourable. */
  ghost function EffortOf(t: Token): nat
  {
    match t.stage
    case InMainLoop => 9
    case InTask => 9
    case InTimer(_) => 9
    case InQueue => 8
    case GivenUp => 0
    case InWorker(phase) =>
      match phase
      case Begin => 7
      case Fetch => 6
      case Part(HeaderBlob, res) =>
        if Submitted(t.job, HeaderBlob, res) && Submitted(t.job, DataBlob, res) then 5 else 16
      case Part(DataBlob, res) =>
        if t.job.headerDone && Submitted(t.job, DataBlob, res) then 4 else 15
      case Decide(complete) => if complete then 3 else 14
      case RecordFailure(b) => if b.HeaderBlob? then 13 else 12
      case Exhausted => 11
      case Cooldown => 10
  }

  ghost function Count(y: Tally, t: Token): nat
  {
    match y
    case OfLineage(l) => One(t.job.lineage == l)
    case AtRound(l, r) => One(t.job.lineage == l && t.job.round == r)
    case PastRound(l, r) => One(t.job.lineage == l && t.job.round > r)
    case InFlight => One(t.job.started)
    case Recorded(b) => One(HasRecorded(t, b))
    case RecordedIn(b, l, r) => One(HasRecorded(t, b) && t.job.lineage == l && t.job.round == r)
    case Owing(o) => One(PastFailure(t, o))
    case Malformed(cfg) => One(!WellFormed(t, cfg))
    case Live => One(!t.stage.GivenUp?)
    case OfHeight(h) => One(t.job.header.height == h)
    case OfHeader(h) => One(t.job.header == h)
    case Exactly(u) => One(t == u)
    case Nobody => 0
    case Effort => EffortOf(t)
  }

  // ----- the weight of a state

  ghost function QueueValue(y: Tally): Job -> nat { (j: Job) => Count(y, Token(j, InQueue)) }

  ghost function WorkerValue(y: Tally): Worker -> nat
  {
    (w: Worker) => if w.Busy? then Count(y, Token(w.job, InWorker(w.phase))) else 0
  }

  ghost function TimerValue(y: Tally): Timer -> nat { (t: Timer) => Count(y, Token(t.job, InTimer(t.delay))) }

  ghost function TaskValue(y: Tally): Task -> nat
  {
    (t: Task) => if t.pending.Some? then Count(y, Token(t.pending.value, InTask)) else 0
  }

  ghost function LostValue(y: Tally): Job -> nat { (j: Job) => Count(y, Token(j, GivenUp)) }

  ghost function MainValue(y: Tally, m: MainLoop): nat
  {
    if m.Sending? then Count(y, Token(m.job, InMainLoop)) else 0
  }

  ghost function Weight(s: State, y: Tally): nat
  {
    MainValue(y, s.main) + SumBy(s.queue, QueueValue(y)) + SumBy(s.workers, WorkerValue(y)) +
    SumBy(s.timers, TimerValue(y)) + SumBy(s.tasks, TaskValue(y)) + SumBy(s.log.lost, LostValue(y))
  }

  // ----- the flow of one step

  /** The job a step takes from its place. */
  ghost function Taken(s: State, step: Step): Option<Token>
    requires Enabled(s, step)
  {
    match step
    case MainEnqueue => Some(Token(s.main.job, InMainLoop))
    case MainExit => if s.main.Sending? then Some(Token(s.main.job, InMainLoop)) else None
    case TaskEnqueue(k) => Some(Token(s.tasks[k].pending.value, InTask))
    case TaskCancelled(k) =>
      if s.tasks[k].pending.Some? then Some(Token(s.tasks[k].pending.value, InTask)) else None
    case TimerFire(i) => Some(Token(s.timers[i].job, InTimer(s.timers[i].delay)))
    case TimerCancelled(i) => Some(Token(s.timers[i].job, InTimer(s.timers[i].delay)))
    case Dequeue(w) => Some(Token(s.queue[0], InQueue))
    case Work(w, _, _) => Some(Token(s.workers[w].job, InWorker(s.workers[w].phase)))
    case _ => None
  }

  ghost function PutBy(e: Effect): Option<Token>
  {
    if e.worker.Busy? then Some(Token(e.worker.job, InWorker(e.worker.phase)))
    else if e.timer.Some? then Some(Token(e.timer.value.job, InTimer(e.timer.value.delay)))
    else None
  }

  /** The job a step puts somewhere. */
  ghost function Put(s: State, step: Step): Option<Token>
    requires Enabled(s, step)
  {
    match step
    case Receive(header) => Some(Token(NewJob(header, s.log.nextLineage, 0), InMainLoop))
    case MainEnqueue => Some(Token(s.main.job, InQueue))
    case TaskFetch(k, reply) =>
      if reply.GotHeader? then Some(Token(NewJob(reply.header, s.log.nextLineage, 0), InTask)) else None
    case TaskEnqueue(k) => Some(Token(s.tasks[k].pending.value, InQueue))
    case TimerFire(i) => Some(Token(s.timers[i].job, InQueue))
    case Dequeue(w) => Some(Token(s.queue[0], InWorker(Begin)))
    case MainExit => if s.main.Sending? then Some(Token(s.main.job, GivenUp)) else None
    case TaskCancelled(k) =>
      if s.tasks[k].pending.Some? then Some(Token(s.tasks[k].pending.value, GivenUp)) else None
    case TimerCancelled(i) => Some(Token(s.timers[i].job, GivenUp))
    case Work(w, fetch, part) => PutBy(VerifyStep(s.cfg, s.workers[w].job, s.workers[w].phase, fetch, part))
    case _ => None
  }

  ghost function CountOf(y: Tally, t: Option<Token>): nat { if t.Some? then Count(y, t.value) else 0 }

  lemma WeightOfParts(s: State, s': State, y: Tally)
    requires s'.main == s.main && s'.queue == s.queue && s'.workers == s.workers
    requires s'.timers == s.timers && s'.tasks == s.tasks && s'.log.lost == s.log.lost
    ensures Weight(s', y) == Weight(s, y)
  {
  }

  lemma ReceiveFlow(s: State, header: Header, y: Tally)
    requires Enabled(s, Receive(header))
    ensures Weight(MainStep(s, Receive(header)), y) == Weight(s, y) + CountOf(y, Put(s, Receive(header)))
  {
    hide Count, GapBelow, Max;
    var s' := MainStep(s, Receive(header));
    if OpensGap(s.lastHeight, header.height) {
      SumAppend(s.tasks, s'.tasks[|s.tasks|], TaskValue(y));
    } else {
      assert s.tasks + [] == s.tasks;
    }
  }

  lemma QueueGrows(queue: seq<Job>, j: Job, y: Tally)
    ensures SumBy(queue + [j], QueueValue(y)) == SumBy(queue, QueueValue(y)) + Count(y, Token(j, InQueue))
  {
    hide Count;
    SumAppend(queue, j, QueueValue(y));
  }

  lemma LostGrows(lost: seq<Job>, j: Job, y: Tally)
    ensures SumBy(lost + [j], LostValue(y)) == SumBy(lost, LostValue(y)) + Count(y, Token(j, GivenUp))
  {
    hide Count;
    SumAppend(lost, j, LostValue(y));
  }

  lemma MainFlow(s: State, step: Step, y: Tally)
    requires Enabled(s, step)
    requires step.MainEnqueue? || step.MainExit? || step.SubscriptionLost? || step.SubscriptionRestored?
    ensures Weight(MainStep(s, step), y) + CountOf(y, Taken(s, step)) == Weight(s, y) + CountOf(y, Put(s, step))
  {
    hide Count, GapBelow, OpensGap;
    if step.MainEnqueue? {
      QueueGrows(s.queue, s.main.job, y);
    } else if step.MainExit? && s.main.Sending? {
      LostGrows(s.log.lost, s.main.job, y);
    }
  }

  /** What becomes of a backfill's pending send, and of a job it gives up. */
  lemma PendingMoves(t: Task, log: Log, step: Step)
    requires IsTaskStep(step) && (step.TaskEnqueue? ==> t.pending.Some?)
    ensures TaskMove(t, step, log.nextLineage).pending ==
            if step.TaskFetch? && step.reply.GotHeader? then Some(NewJob(step.reply.header, log.nextLineage, 0))
            else if step.TaskEnqueue? || step.TaskCancelled? then None else t.pending
    ensures TaskLog(log, t, step).lost ==
            if step.TaskCancelled? && t.pending.Some? then log.lost + [t.pending.value] else log.lost
  {
    hide Dropped, WindowStart, GapSize;
  }

  lemma PendingCounts(t: Task, y: Tally)
    ensures TaskValue(y)(t) == if t.pending.Some? then Count(y, Token(t.pending.value, InTask)) else 0
  {
  }

  lemma TaskFlow(s: State, step: Step, y: Tally)
    requires Enabled(s, step) && IsTaskStep(step)
    ensures Weight(TaskStep(s, step), y) + CountOf(y, Taken(s, step)) == Weight(s, y) + CountOf(y, Put(s, step))
  {
    hide Count, TaskMove, TaskLog, QueueValue, LostValue, TaskValue, TimerValue, WorkerValue, MainValue;
    var t := s.tasks[step.k];
    PendingMoves(t, s.log, step);
    PendingCounts(t, y);
    PendingCounts(TaskMove(t, step, s.log.nextLineage), y);
    SumUpdate(s.tasks, step.k, TaskMove(t, step, s.log.nextLineage), TaskValue(y));
    if step.TaskEnqueue? { QueueGrows(s.queue, t.pending.value, y); }
    if step.TaskCancelled? && t.pending.Some? { LostGrows(s.log.lost, t.pending.value, y); }
  }

  lemma TimerFlow(s: State, step: Step, y: Tally)
    requires Enabled(s, step) && (step.TimerFire? || step.TimerCancelled?)
    ensures Weight(PoolStep(s, step), y) + CountOf(y, Taken(s, step)) == Weight(s, y) + CountOf(y, Put(s, step))
  {
    hide Count;
    SumRemove(s.timers, step.i, TimerValue(y));
    if step.TimerFire? {
      QueueGrows(s.queue, s.timers[step.i].job, y);
    } else {
      LostGrows(s.log.lost, s.timers[step.i].job, y);
    }
  }

  lemma BusyCounts(w: Worker, y: Tally)
    ensures WorkerValue(y)(w) == if w.Busy? then Count(y, Token(w.job, InWorker(w.phase))) else 0
  {
  }

  lemma QueueShrinks(queue: seq<Job>, y: Tally)
    requires queue != []
    ensures SumBy(queue, QueueValue(y)) == SumBy(queue[1..], QueueValue(y)) + Count(y, Token(queue[0], InQueue))
  {
    hide Count;
    SumRemove(queue, 0, QueueValue(y));
    assert queue[..0] + queue[1..] == queue[1..];
  }

  lemma DequeueFlow(s: State, step: Step, y: Tally)
    requires Enabled(s, step) && (step.Dequeue? || step.WorkerExit?)
    ensures Weight(PoolStep(s, step), y) + CountOf(y, Taken(s, step)) == Weight(s, y) + CountOf(y, Put(s, step))
  {
    hide Count, QueueValue, WorkerValue, TimerValue, TaskValue, LostValue, MainValue;
    var w := PoolStep(s, step).workers[step.w];
    SumUpdate(s.workers, step.w, w, WorkerValue(y));
    BusyCounts(s.workers[step.w], y);
    BusyCounts(w, y);
    if step.Dequeue? {
      QueueShrinks(s.queue, y);
    }
  }

  /** verifyBlock never holds its job and hands it to a timer at the same time. */
  lemma WorkStaysOrLeaves(cfg: Config, j: Job, phase: Phase, fetch: FetchReply, part: PartReply)
    ensures var e := VerifyStep(cfg, j, phase, fetch, part);
            !e.worker.Stopped? && (e.timer.Some? ==> e.worker.Idle?)
  {
  }

  lemma WorkFlow(s: State, w: nat, e: Effect, y: Tally)
    requires w < |s.workers| && s.workers[w].Busy?
    requires !e.worker.Stopped? && (e.timer.Some? ==> e.worker.Idle?)
    ensures Weight(Apply(s, w, e), y) + Count(y, Token(s.workers[w].job, InWorker(s.workers[w].phase)))
         == Weight(s, y) + CountOf(y, PutBy(e))
  {
    hide Count, OnVerified, QueueValue, TaskValue, LostValue, MainValue;
    SumUpdate(s.workers, w, e.worker, WorkerValue(y));
    if e.timer.Some? {
      SumAppend(s.timers, e.timer.value, TimerValue(y));
    } else {
      assert s.timers + [] == s.timers;
    }
  }

  /** Under any tally, a step changes the total by exactly the job it takes and the job it puts. */
  lemma Flow(s: State, step: Step, y: Tally)
    requires Enabled(s, step)
    ensures Weight(After(s, step), y) + CountOf(y, Taken(s, step)) == Weight(s, y) + CountOf(y, Put(s, step))
  {
    hide Count, MainStep, TaskStep, PoolStep, Apply, VerifyStep, Weight;
    match step
    case Receive(header) => ReceiveFlow(s, header, y);
    case TaskBegin(_) => TaskFlow(s, step, y);
    case TaskFetch(_, _) => TaskFlow(s, step, y);
    case TaskEnqueue(_) => TaskFlow(s, step, y);
    case TaskCancelled(_) => TaskFlow(s, step, y);
    case TimerFire(_) => TimerFlow(s, step, y);
    case TimerCancelled(_) => TimerFlow(s, step, y);
    case Dequeue(_) => DequeueFlow(s, step, y);
    case WorkerExit(_) => DequeueFlow(s, step, y);
    case Work(w, fetch, part) =>
      WorkStaysOrLeaves(s.cfg, s.workers[w].job, s.workers[w].phase, fetch, part);
      WorkFlow(s, w, VerifyStep(s.cfg, s.workers[w].job, s.workers[w].phase, fetch, part), y);
    case Cancel => WeightOfParts(s, After(s, step), y);
    case _ => MainFlow(s, step, y);
  }

  /** The job a step takes is one of those counted. */
  lemma TakenWithin(s: State, step: Step, y: Tally)
    requires Enabled(s, step)
    ensures CountOf(y, Taken(s, step)) <= Weight(s, y)
  {
    hide Count;
    match step
    case TaskEnqueue(k) => SumTerm(s.tasks, k, TaskValue(y));
    case TaskCancelled(k) => SumTerm(s.tasks, k, TaskValue(y));
    case TimerFire(i) => SumTerm(s.timers, i, TimerValue(y));
    case TimerCancelled(i) => SumTerm(s.timers, i, TimerValue(y));
    case Dequeue(_) => SumTerm(s.queue, 0, QueueValue(y));
    case Work(w, _, _) => SumTerm(s.workers, w, WorkerValue(y));
    case _ =>
  }

  // ----- from weights to places

  /** The job t is at its place in s. */
  ghost predicate At(s: State, t: Token)
  {
    match t.stage
    case InMainLoop => s.main == Sending(t.job)
    case InTask => exists k :: 0 <= k < |s.tasks| && s.tasks[k].pending == Some(t.job)
    case InQueue => t.job in s.queue
    case InTimer(delay) => Timer(t.job, delay) in s.timers
    case InWorker(phase) => Busy(t.job, phase) in s.workers
    case GivenUp => t.job in s.log.lost
  }

  /** A positive weight is carried by some job at its place. */
  lemma Found(s: State, y: Tally) returns (t: Token)
    requires Weight(s, y) > 0
    ensures At(s, t) && Count(y, t) > 0
  {
    hide Count;
    if MainValue(y, s.main) > 0 {
      t := Token(s.main.job, InMainLoop);
    } else if SumBy(s.queue, QueueValue(y)) > 0 {
      var i := SumPositive(s.queue, QueueValue(y));
      t := Token(s.queue[i], InQueue);
    } else if SumBy(s.workers, WorkerValue(y)) > 0 {
      var i := SumPositive(s.workers, WorkerValue(y));
      t := Token(s.workers[i].job, InWorker(s.workers[i].phase));
      assert s.workers[i] == Busy(t.job, t.stage.phase);
    } else if SumBy(s.timers, TimerValue(y)) > 0 {
      var i := SumPositive(s.timers, TimerValue(y));
      t := Token(s.timers[i].job, InTimer(s.timers[i].delay));
      assert s.timers[i] == Timer(t.job, t.stage.delay);
    } else if SumBy(s.tasks, TaskValue(y)) > 0 {
      var i := SumPositive(s.tasks, TaskValue(y));
      t := Token(s.tasks[i].pending.value, InTask);
    } else {
      var i := SumPositive(s.log.lost, LostValue(y));
      t := Token(s.log.lost[i], GivenUp);
    }
  }

  /** A job at its place is counted. */
  lemma Counted(s: State, t: Token, y: Tally)
    requires At(s, t)
    ensures Count(y, t) <= Weight(s, y)
  {
    hide Count;
    match t.stage
    case InMainLoop =>
    case InTask =>
      var k :| 0 <= k < |s.tasks| && s.tasks[k].pending == Some(t.job);
      SumTerm(s.tasks, k, TaskValue(y));
    case InQueue =>
      var k :| 0 <= k < |s.queue| && s.queue[k] == t.job;
      SumTerm(s.queue, k, QueueValue(y));
    case InTimer(delay) =>
      var k :| 0 <= k < |s.timers| && s.timers[k] == Timer(t.job, delay);
      SumTerm(s.timers, k, TimerValue(y));
    case InWorker(phase) =>
      var k :| 0 <= k < |s.workers| && s.workers[k] == Busy(t.job, phase);
      SumTerm(s.workers, k, WorkerValue(y));
    case GivenUp =>
      var k :| 0 <= k < |s.log.lost| && s.log.lost[k] == t.job;
      SumTerm(s.log.lost, k, LostValue(y));
  }

  ghost predicate Below(x: Tally, y: Tally, z: Tally)
  {
    forall t :: Count(x, t) + Count(y, t) <= Count(z, t)
  }

  lemma JobsBelow(queue: seq<Job>, lost: seq<Job>, x: Tally, y: Tally, z: Tally)
    requires Below(x, y, z)
    ensures SumBy(queue, QueueValue(x)) + SumBy(queue, QueueValue(y)) <= SumBy(queue, QueueValue(z))
    ensures SumBy(lost, LostValue(x)) + SumBy(lost, LostValue(y)) <= SumBy(lost, LostValue(z))
  {
    hide Count;
    SumBelow(queue, QueueValue(x), QueueValue(y), QueueValue(z));
    SumBelow(lost, LostValue(x), LostValue(y), LostValue(z));
  }

  lemma WorkersBelow(ws: seq<Worker>, x: Tally, y: Tally, z: Tally)
    requires Below(x, y, z)
    ensures SumBy(ws, WorkerValue(x)) + SumBy(ws, WorkerValue(y)) <= SumBy(ws, WorkerValue(z))
  {
    hide Count;
    SumBelow(ws, WorkerValue(x), WorkerValue(y), WorkerValue(z));
  }

  lemma TimersBelow(ts: seq<Timer>, x: Tally, y: Tally, z: Tally)
    requires Below(x, y, z)
    ensures SumBy(ts, TimerValue(x)) + SumBy(ts, TimerValue(y)) <= SumBy(ts, TimerValue(z))
  {
    hide Count;
    SumBelow(ts, TimerValue(x), TimerValue(y), TimerValue(z));
  }

  lemma TasksBelow(ts: seq<Task>, x: Tally, y: Tally, z: Tally)
    requires Below(x, y, z)
    ensures SumBy(ts, TaskValue(x)) + SumBy(ts, TaskValue(y)) <= SumBy(ts, TaskValue(z))
  {
    hide Count;
    SumBelow(ts, TaskValue(x), TaskValue(y), TaskValue(z));
  }

  lemma MainBelow(m: MainLoop, x: Tally, y: Tally, z: Tally)
    requires Below(x, y, z)
    ensures MainValue(x, m) + MainValue(y, m) <= MainValue(z, m)
  {
    hide Count;
  }

  /** Tallies that add up below a third one token by token do so over the whole state. */
  lemma WeightBelow(s: State, x: Tally, y: Tally, z: Tally)
    requires Below(x, y, z)
    ensures Weight(s, x) + Weight(s, y) <= Weight(s, z)
  {
    hide Count, Below;
    JobsBelow(s.queue, s.log.lost, x, y, z);
    WorkersBelow(s.workers, x, y, z);
    TimersBelow(s.timers, x, y, z);
    TasksBelow(s.tasks, x, y, z);
    MainBelow(s.main, x, y, z);
  }
}
