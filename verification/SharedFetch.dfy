/** DA lookups of internal/clients/celestia/client.go: two caches and one singleflight group shared by two
    result types, as a step machine over concurrent callers. Taken as given of singleflight: one running
    call per key, its result delivered to every waiter of that key as the key is released. */
module SharedFetch {
  import opened Options
  import opened Uint64
  import opened Decimal
  import opened TtlCache

  type Namespace = seq<Byte>

  type Blob = seq<Byte>

  datatype Request = TimestampOf(height: Height) | BlobsAt(height: Height, namespace: Namespace)

  /** The singleflight key: "timestamp/%d" or "blobs/%d/%x". */
  function FlightKey(r: Request): string
  {
    match r
    case TimestampOf(h) => "timestamp/" + Dec(h)
    case BlobsAt(h, ns) => "blobs/" + (Dec(h) + ['/'] + Hex(ns))
  }

  /** Equal flight keys are equal requests: no two lookups, of one kind or of both, ever share a flight
      unless they share the cache key. */
  lemma FlightKeyInjective(a: Request, b: Request)
    requires FlightKey(a) == FlightKey(b)
    ensures a == b
  {
    var s, t := FlightKey(a), FlightKey(b);
    assert s[0] == if a.TimestampOf? then 't' else 'b';
    assert t[0] == if b.TimestampOf? then 't' else 'b';
    if a.TimestampOf? {
      assert s[10..] == Dec(a.height) && t[10..] == Dec(b.height);
      DecInjective(a.height, b.height);
    } else {
      assert s[6..] == Dec(a.height) + ['/'] + Hex(a.namespace);
      assert t[6..] == Dec(b.height) + ['/'] + Hex(b.namespace);
      SplitUnique(Dec(a.height), Hex(a.namespace), Dec(b.height), Hex(b.namespace), '/');
      DecInjective(a.height, b.height);
      HexInjective(a.namespace, b.namespace);
    }
  }

  // ----- values, results and the DA layer

  /** Go's any, as far as the group carries it. */
  datatype Any = TimeVal(time: int) | BlobsVal(blobs: seq<Blob>)

  datatype Result = Ok(val: Any) | Failed

  /** The dynamic type that the caller of r asserts. */
  predicate HasType(r: Request, v: Any) { if r.TimestampOf? then v.TimeVal? else v.BlobsVal? }

  predicate NothingThere(v: Any) { v == BlobsVal([]) }

  /** What the DA layer will hold for every key once it holds something. */
  ghost predicate ContentOk(content: Request -> Any)
  {
    forall r :: HasType(r, content(r)) && !NothingThere(content(r))
  }

  /** The answer of one RPC. */
  datatype Reply = Timestamp(time: int) | Blobs(blobs: seq<Blob>) | NotFound | InFuture | OtherError

  /** fetchBlobs and fetchBlockTimestamp: "blob: not found" is an empty list, other errors fail. */
  function Classify(r: Request, reply: Reply): Result
  {
    match reply
    case Timestamp(t) => if r.TimestampOf? then Ok(TimeVal(t)) else Failed
    case Blobs(bs) => if r.BlobsAt? then Ok(BlobsVal(bs)) else Failed
    case NotFound => if r.BlobsAt? then Ok(BlobsVal([])) else Failed
    case InFuture => Failed
    case OtherError => Failed
  }

  /** The node reports the content of a key once it is published, and nothing before. */
  ghost predicate Honest(content: Request -> Any, published: set<Request>, r: Request, reply: Reply)
  {
    match Classify(r, reply)
    case Failed => true
    case Ok(v) => NothingThere(v) || (r in published && v == content(r))
  }

  // ----- the state

  datatype Stage = Running | Fetched(res: Result) | Stored(res: Result)

  /** A running call: the request its closure was made for, and the callers waiting on its key. */
  datatype Flight = Flight(req: Request, stage: Stage, waiters: set<nat>)

  datatype Return = Value(val: Any) | FetchError | ContextDone | TypePanic

  datatype CallPhase = Calling | Missed | Waiting(inbox: Option<Result>) | Returned(ret: Return)

  datatype Caller = Caller(req: Request, phase: CallPhase, cancelled: bool)

  datatype State = State(
    ttl: int,
    now: int,
    published: set<Request>,
    timestamps: map<Height, Entry<int>>,
    blobs: map<(Height, Namespace), Entry<seq<Blob>>>,
    flights: map<string, Flight>,
    callers: seq<Caller>)
  {
    ghost function Cached(r: Request): Option<Any> {
      match r
      case TimestampOf(h) =>
        (match Lookup(timestamps, h, now) case Some(t) => Some(TimeVal(t)) case None => None)
      case BlobsAt(h, ns) =>
        (match Lookup(blobs, (h, ns), now) case Some(bs) => Some(BlobsVal(bs)) case None => None)
    }

    ghost function SetPhase(c: nat, p: CallPhase): State
      requires c < |callers|
    {
      this.(callers := callers[c := callers[c].(phase := p)])
    }
  }

  ghost function Init(ttl: int, now: int): State { State(ttl, now, {}, map[], map[], map[], []) }

  datatype Step =
    | Tick(d: nat)
    | Publish(req: Request)
    | Call(req: Request)
    | Look(c: nat)
    | Join(c: nat)
    | Return(key: string, reply: Reply)
    | Store(key: string)
    | Deliver(key: string)
    | Receive(c: nat)
    | CancelCaller(c: nat)
    | GiveUp(c: nat)

  ghost predicate Enabled(content: Request -> Any, s: State, step: Step)
  {
    match step
    case Tick(_) => true
    case Publish(_) => true
    case Call(_) => true
    case Look(c) => c < |s.callers| && s.callers[c].phase.Calling?
    case Join(c) => c < |s.callers| && s.callers[c].phase.Missed?
    case Return(key, reply) =>
      key in s.flights && s.flights[key].stage.Running? && Honest(content, s.published, s.flights[key].req, reply)
    case Store(key) => key in s.flights && s.flights[key].stage.Fetched?
    case Deliver(key) => key in s.flights && s.flights[key].stage.Stored?
    case Receive(c) => c < |s.callers| && s.callers[c].phase.Waiting? && s.callers[c].phase.inbox.Some?
    case CancelCaller(c) => c < |s.callers|
    case GiveUp(c) => c < |s.callers| && s.callers[c].phase.Waiting? && s.callers[c].cancelled
  }

  /** DoChan: wait on the running call of this key, or start one. */
  ghost function JoinFlight(s: State, c: nat): State
    requires c < |s.callers|
  {
    var r := s.callers[c].req;
    var key := FlightKey(r);
    var f := if key in s.flights then s.flights[key].(waiters := s.flights[key].waiters + {c})
             else Flight(r, Running, {c});
    s.(flights := s.flights[key := f]).SetPhase(c, Waiting(None))
  }

  /** cachePut under the closure's own key, for a success that is not empty. */
  ghost function Keep(s: State, r: Request, res: Result): State
  {
    match (r, res)
    case (TimestampOf(h), Ok(TimeVal(t))) => s.(timestamps := PutSwept(s.timestamps, h, t, s.ttl, s.now))
    case (BlobsAt(h, ns), Ok(BlobsVal(bs))) =>
      if |bs| > 0 then s.(blobs := PutSwept(s.blobs, (h, ns), bs, s.ttl, s.now)) else s
    case _ => s
  }

  ghost function DeliverTo(callers: seq<Caller>, waiters: set<nat>, res: Result): (after: seq<Caller>)
    ensures |after| == |callers|
    ensures forall c :: 0 <= c < |callers| ==>
              after[c] == if c in waiters && callers[c].phase.Waiting?
                          then callers[c].(phase := Waiting(Some(res))) else callers[c]
  {
    seq(|callers|, c requires 0 <= c < |callers| =>
      if c in waiters && callers[c].phase.Waiting? then callers[c].(phase := Waiting(Some(res))) else callers[c])
  }

  /** The caller takes its result: the error, or the value after the type assertion. */
  ghost function Received(r: Request, res: Result): Return
  {
    match res
    case Failed => FetchError
    case Ok(v) => if HasType(r, v) then Value(v) else TypePanic
  }

  ghost function After(content: Request -> Any, s: State, step: Step): State
    requires Enabled(content, s, step)
  {
    match step
    case Tick(d) => s.(now := s.now + d)
    case Publish(r) => s.(published := s.published + {r})
    case Call(r) => s.(callers := s.callers + [Caller(r, Calling, false)])
    case Look(c) =>
      s.SetPhase(c, match s.Cached(s.callers[c].req) case Some(v) => Returned(Value(v)) case None => Missed)
    case Join(c) => JoinFlight(s, c)
    case Return(key, reply) =>
      var f := s.flights[key];
      s.(flights := s.flights[key := f.(stage := Fetched(Classify(f.req, reply)))])
    case Store(key) =>
      var f := s.flights[key];
      Keep(s, f.req, f.stage.res).(flights := s.flights[key := f.(stage := Stored(f.stage.res))])
    case Deliver(key) =>
      var f := s.flights[key];
      s.(flights := s.flights - {key}, callers := DeliverTo(s.callers, f.waiters, f.stage.res))
    case Receive(c) => s.SetPhase(c, Returned(Received(s.callers[c].req, s.callers[c].phase.inbox.value)))
    case CancelCaller(c) => s.(callers := s.callers[c := s.callers[c].(cancelled := true)])
    case GiveUp(c) => s.SetPhase(c, Returned(ContextDone))
  }

  // ----- runs

  ghost function Run(content: Request -> Any, s: State, steps: seq<Step>): State
    requires ValidRun(content, s, steps)
    decreases |steps|, 1
  {
    if steps == [] then s else After(content, Run(content, s, steps[..|steps| - 1]), steps[|steps| - 1])
  }

  ghost predicate ValidRun(content: Request -> Any, s: State, steps: seq<Step>)
    decreases |steps|, 0
  {
    steps == [] || (ValidRun(content, s, steps[..|steps| - 1])
                    && Enabled(content, Run(content, s, steps[..|steps| - 1]), steps[|steps| - 1]))
  }

  // ----- what every run keeps

  /** A value is the published DA content of the key, or an empty blob list. */
  ghost predicate TrueFor(content: Request -> Any, published: set<Request>, r: Request, v: Any)
  {
    HasType(r, v) && (NothingThere(v) || (r in published && v == content(r)))
  }

  ghost predicate TrueResult(content: Request -> Any, published: set<Request>, r: Request, res: Result)
  {
    res.Ok? ==> TrueFor(content, published, r, res.val)
  }

  /** Cached entries are published content, never empty and never a failure. */
  ghost predicate CachesTrue(content: Request -> Any, s: State)
  {
    && (forall h :: h in s.timestamps ==>
          TimestampOf(h) in s.published && content(TimestampOf(h)) == TimeVal(s.timestamps[h].value))
    && (forall k :: k in s.blobs ==>
          && BlobsAt(k.0, k.1) in s.published && s.blobs[k].value != []
          && content(BlobsAt(k.0, k.1)) == BlobsVal(s.blobs[k].value))
  }

  ghost predicate FlightTrue(content: Request -> Any, s: State, key: string, f: Flight)
  {
    && key == FlightKey(f.req)
    && (f.stage.Fetched? || f.stage.Stored? ==> TrueResult(content, s.published, f.req, f.stage.res))
    && forall c :: c in f.waiters ==> c < |s.callers| && s.callers[c].req == f.req
  }

  ghost predicate CallerTrue(content: Request -> Any, s: State, c: nat, k: Caller)
  {
    match k.phase
    case Waiting(None) => FlightKey(k.req) in s.flights && c in s.flights[FlightKey(k.req)].waiters
    case Waiting(Some(res)) => TrueResult(content, s.published, k.req, res)
    case Returned(Value(v)) => TrueFor(content, s.published, k.req, v)
    case Returned(TypePanic) => false
    case _ => true
  }

  ghost predicate FlightsTrue(content: Request -> Any, s: State)
  {
    forall key :: key in s.flights ==> FlightTrue(content, s, key, s.flights[key])
  }

  ghost predicate CallersTrue(content: Request -> Any, s: State)
  {
    forall c :: 0 <= c < |s.callers| ==> CallerTrue(content, s, c, s.callers[c])
  }

  ghost predicate Inv(content: Request -> Any, s: State)
  {
    CachesTrue(content, s) && FlightsTrue(content, s) && CallersTrue(content, s)
  }

  lemma CachesKept(content: Request -> Any, s: State, step: Step)
    requires Enabled(content, s, step) && CachesTrue(content, s) && FlightsTrue(content, s)
    ensures CachesTrue(content, After(content, s, step))
  {
    hide FlightKey;
    if step.Store? { assert FlightTrue(content, s, step.key, s.flights[step.key]); }
  }

  lemma KeepTouchesCaches(s: State, r: Request, res: Result)
    ensures Keep(s, r, res) == s.(timestamps := Keep(s, r, res).timestamps, blobs := Keep(s, r, res).blobs)
  {
  }

  /** Here the keys matter: the flight found under a printed key is a flight for the same request. */
  lemma FlightsKept(content: Request -> Any, s: State, step: Step)
    requires Enabled(content, s, step) && FlightsTrue(content, s)
    ensures FlightsTrue(content, After(content, s, step))
  {
    hide FlightKey, Keep, State.Cached;
    var s' := After(content, s, step);
    if step.Join? && FlightKey(s.callers[step.c].req) in s.flights {
      FlightKeyInjective(s.callers[step.c].req, s.flights[FlightKey(s.callers[step.c].req)].req);
    }
    if step.Store? { KeepTouchesCaches(s, s.flights[step.key].req, s.flights[step.key].stage.res); }
    forall key | key in s'.flights
      ensures FlightTrue(content, s', key, s'.flights[key])
    {
      assert key in s.flights ==> FlightTrue(content, s, key, s.flights[key]);
    }
  }

  lemma CachedIsTrue(content: Request -> Any, s: State, r: Request)
    requires CachesTrue(content, s)
    ensures s.Cached(r).Some? ==> TrueFor(content, s.published, r, s.Cached(r).value)
  {
  }

  lemma CallersKept(content: Request -> Any, s: State, step: Step)
    requires ContentOk(content) && Enabled(content, s, step) && Inv(content, s)
    ensures CallersTrue(content, After(content, s, step))
  {
    hide FlightKey, Keep, State.Cached;
    var s' := After(content, s, step);
    if step.Look? { CachedIsTrue(content, s, s.callers[step.c].req); }
    if step.Store? { KeepTouchesCaches(s, s.flights[step.key].req, s.flights[step.key].stage.res); }
    if step.Deliver? { assert FlightTrue(content, s, step.key, s.flights[step.key]); }
    forall c | 0 <= c < |s'.callers|
      ensures CallerTrue(content, s', c, s'.callers[c])
    {
      if c < |s.callers| { assert CallerTrue(content, s, c, s.callers[c]); }
    }
  }

  lemma InvKept(content: Request -> Any, s: State, step: Step)
    requires ContentOk(content) && Enabled(content, s, step) && Inv(content, s)
    ensures Inv(content, After(content, s, step))
  {
    CachesKept(content, s, step);
    FlightsKept(content, s, step);
    CallersKept(content, s, step);
  }

  lemma EmptyTrue(content: Request -> Any, ttl: int, now: int)
    ensures Inv(content, Init(ttl, now))
  {
  }

  lemma {:induction false} InvHolds(content: Request -> Any, ttl: int, now: int, steps: seq<Step>)
    requires ContentOk(content) && ValidRun(content, Init(ttl, now), steps)
    ensures Inv(content, Run(content, Init(ttl, now), steps))
  {
    hide Inv, After, Enabled;
    if steps == [] {
      assert Inv(content, Init(ttl, now)) by { EmptyTrue(content, ttl, now); }
    } else {
      InvHolds(content, ttl, now, steps[..|steps| - 1]);
      InvKept(content, Run(content, Init(ttl, now), steps[..|steps| - 1]), steps[|steps| - 1]);
    }
  }

  // ----- theorems

  /** At most one fetch per request is in progress, and a caller still waiting always has one coming. */
  lemma OneFlightPerRequest(content: Request -> Any, ttl: int, now: int, steps: seq<Step>)
    requires ContentOk(content) && ValidRun(content, Init(ttl, now), steps)
    ensures var s := Run(content, Init(ttl, now), steps);
            && (forall k, l :: k in s.flights && l in s.flights && s.flights[k].req == s.flights[l].req ==> k == l)
            && (forall c :: 0 <= c < |s.callers| && s.callers[c].phase == Waiting(None) ==>
                  exists k :: k in s.flights && s.flights[k].req == s.callers[c].req && c in s.flights[k].waiters)
  {
    hide After, Enabled, Init, FlightKey;
    InvHolds(content, ttl, now, steps);
    var s := Run(content, Init(ttl, now), steps);
    assert forall k :: k in s.flights ==> FlightTrue(content, s, k, s.flights[k]);
    forall c | 0 <= c < |s.callers| && s.callers[c].phase == Waiting(None)
      ensures exists k :: k in s.flights && s.flights[k].req == s.callers[c].req && c in s.flights[k].waiters
    {
      assert CallerTrue(content, s, c, s.callers[c]);
      var k := FlightKey(s.callers[c].req);
      assert k in s.flights && c in s.flights[k].waiters;
    }
  }

  // ----- cancellation

  /** The two states differ at most in what became of caller c: it may have been cancelled or have returned
      in the first one while it is still waiting in the second. */
  ghost predicate SameButFate(s: State, s': State, c: nat)
  {
    && c < |s.callers| == |s'.callers|
    && s' == s.(callers := s'.callers)
    && (forall k :: 0 <= k < |s.callers| && k != c ==> s'.callers[k] == s.callers[k])
    && s'.callers[c].req == s.callers[c].req
    && (s'.callers[c].phase == s.callers[c].phase || (s.callers[c].phase.Returned? && s'.callers[c].phase.Waiting?))
  }

  /** The steps by which caller c ends its call while it waits. */
  ghost predicate EndsCall(step: Step, c: nat)
  {
    step == Receive(c) || step == CancelCaller(c) || step == GiveUp(c)
  }

  ghost function WithoutEnd(steps: seq<Step>, c: nat): seq<Step>
  {
    if steps == [] then []
    else WithoutEnd(steps[..|steps| - 1], c) + if EndsCall(steps[|steps| - 1], c) then [] else [steps[|steps| - 1]]
  }

  lemma CachedIgnoresCallers(s: State, s': State, r: Request)
    requires s' == s.(callers := s'.callers)
    ensures s'.Cached(r) == s.Cached(r)
  {
  }

  lemma KeepIgnoresCallers(s: State, s': State, r: Request, res: Result)
    requires s' == s.(callers := s'.callers)
    ensures Keep(s', r, res) == Keep(s, r, res).(callers := s'.callers)
    ensures Keep(s, r, res).callers == s.callers
  {
  }

  lemma FateIsPrivate(content: Request -> Any, s: State, s': State, step: Step, c: nat)
    requires SameButFate(s, s', c) && Enabled(content, s, step)
    ensures if EndsCall(step, c) then SameButFate(After(content, s, step), s', c)
            else Enabled(content, s', step) && SameButFate(After(content, s, step), After(content, s', step), c)
  {
    hide FlightKey, Keep, Received, State.Cached, Honest;
    if !EndsCall(step, c) && step.Look? {
      CachedIgnoresCallers(s, s', s.callers[step.c].req);
    }
    if step.Store? { KeepIgnoresCallers(s, s', s.flights[step.key].req, s.flights[step.key].stage.res); }
  }

  /** One caller's cancellation never shows to anyone else: take out of any run every step by which caller c
      receives, is cancelled or gives up; what is left is a run, and it gives every other caller, the
      flights and both caches exactly the same. */
  lemma {:induction false} CancellationInvisible(content: Request -> Any, s: State, steps: seq<Step>, c: nat)
    requires c < |s.callers| && ValidRun(content, s, steps)
    ensures ValidRun(content, s, WithoutEnd(steps, c))
    ensures SameButFate(Run(content, s, steps), Run(content, s, WithoutEnd(steps, c)), c)
  {
    hide After, Enabled, EndsCall;
    if steps == [] {
    } else {
      var init, step := steps[..|steps| - 1], steps[|steps| - 1];
      CancellationInvisible(content, s, init, c);
      FateIsPrivate(content, Run(content, s, init), Run(content, s, WithoutEnd(init, c)), step, c);
      var rest := WithoutEnd(steps, c);
      if EndsCall(step, c) {
        assert rest == WithoutEnd(init, c);
      } else {
        assert rest[..|rest| - 1] == WithoutEnd(init, c);
      }
    }
  }

  // ----- not once per key

  lemma Extend(content: Request -> Any, start: State, steps: seq<Step>, s: State, step: Step)
    returns (more: seq<Step>, s': State)
    requires ValidRun(content, start, steps) && Run(content, start, steps) == s && Enabled(content, s, step)
    ensures s' == After(content, s, step)
    ensures ValidRun(content, start, more) && Run(content, start, more) == s'
  {
    hide Enabled, After;
    more, s' := steps + [step], After(content, s, step);
    assert more[..|steps|] == steps;
  }

  lemma EmptyRun(content: Request -> Any, s: State)
    ensures ValidRun(content, s, []) && Run(content, s, []) == s
  {
  }

  /** Two concurrent callers of one key can cause two fetches, the second one although the value is cached:
      the second caller missed the cache before the first fetch was stored and joined after it was delivered. */
  lemma SecondFetchPossible(content: Request -> Any, h: Height, ttl: nat) returns (steps: seq<Step>)
    requires ContentOk(content)
    ensures ValidRun(content, Init(ttl, 0), steps)
    ensures var s := Run(content, Init(ttl, 0), steps);
            var key := FlightKey(TimestampOf(h));
            && |s.callers| == 2 && s.callers[0].req == s.callers[1].req == TimestampOf(h)
            && key in s.flights && s.flights[key].stage.Running? && s.Cached(TimestampOf(h)).Some?
            && s.callers[0].phase == Waiting(Some(Ok(content(TimestampOf(h))))) && s.callers[1].phase == Waiting(None)
  {
    hide FlightKey, ValidRun, Run;
    var r, start := TimestampOf(h), Init(ttl, 0);
    assert HasType(r, content(r));
    var key, reply := FlightKey(r), Timestamp(content(r).time);
    var s := start;
    assert ValidRun(content, start, []) && Run(content, start, []) == start by { EmptyRun(content, start); }
    steps, s := Extend(content, start, [], s, Publish(r));
    steps, s := Extend(content, start, steps, s, Call(r));
    steps, s := Extend(content, start, steps, s, Call(r));
    steps, s := Extend(content, start, steps, s, Look(0));
    steps, s := Extend(content, start, steps, s, Look(1));
    assert s.callers == [Caller(r, Missed, false), Caller(r, Missed, false)];
    steps, s := Extend(content, start, steps, s, Join(0));
    steps, s := Extend(content, start, steps, s, Return(key, reply));
    steps, s := Extend(content, start, steps, s, Store(key));
    assert s.timestamps[h] == Entry(content(r).time, ttl);
    steps, s := Extend(content, start, steps, s, Deliver(key));
    steps, s := Extend(content, start, steps, s, Join(1));
  }
}
