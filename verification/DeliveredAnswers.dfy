/** What a caller of a DA lookup gets: exactly what the node answered for its own key, or what the cache holds
    for it, whatever the other callers do. */
module DeliveredAnswers {
  import opened Options
  import opened TtlCache
  import opened SharedFetch
  import opened CachedAnswers

  /** What the node's answer to a lookup of r amounts to: a blob list or a block time as it is, "blob: not
      found" as the empty list, and anything else as a failure. */
  ghost predicate Yields(r: Request, reply: Reply, res: Result)
  {
    match reply
    case Blobs(bs) => res == if r.BlobsAt? then Ok(BlobsVal(bs)) else Failed
    case NotFound => res == if r.BlobsAt? then Ok(BlobsVal([])) else Failed
    case Timestamp(t) => res == if r.TimestampOf? then Ok(TimeVal(t)) else Failed
    case InFuture => res == Failed
    case OtherError => res == Failed
  }

  /** What the caller returns for it: the value itself, or the fetch error. */
  ghost predicate Conveys(res: Result, ret: Return)
  {
    match res
    case Ok(v) => ret == Value(v)
    case Failed => ret == FetchError
  }

  /** The answer of the node becomes the flight's result. */
  lemma ReturnYields(content: Request -> Any, s: State, key: string, reply: Reply)
    requires Enabled(content, s, Return(key, reply))
    ensures key in s.flights && key in After(content, s, Return(key, reply)).flights
    ensures var f := After(content, s, Return(key, reply)).flights[key];
            && f.stage.Fetched? && Yields(s.flights[key].req, reply, f.stage.res)
            && f.req == s.flights[key].req && f.waiters == s.flights[key].waiters
  {
  }

  // ----- from the node's answer to the callers

  /** The flight of this key has its result, not delivered yet. */
  ghost predicate Holds(s: State, key: string, res: Result)
  {
    key in s.flights && (s.flights[key].stage == Fetched(res) || s.flights[key].stage == Stored(res))
  }

  /** Caller c of this key is on the way to the result: its flight holds it, its inbox holds it, or it has
      returned it, unless it gave up because its context is done. */
  ghost predicate OnTheWay(s: State, c: nat, r: Request, res: Result)
  {
    && c < |s.callers| && s.callers[c].req == r
    && match s.callers[c].phase
       case Waiting(None) => Holds(s, FlightKey(r), res) && c in s.flights[FlightKey(r)].waiters
       case Waiting(Some(x)) => x == res && forall k :: k in s.flights ==> c !in s.flights[k].waiters
       case Returned(ret) => Conveys(res, ret) || (ret == ContextDone && s.callers[c].cancelled)
       case _ => false
  }

  lemma HoldsUntilDelivered(content: Request -> Any, s: State, step: Step, key: string, res: Result)
    requires Enabled(content, s, step) && Holds(s, key, res) && step != Deliver(key)
    ensures Holds(After(content, s, step), key, res)
  {
    hide FlightKey, Keep, State.Cached, Honest, Received, Classify;
    if step.Store? { KeepTouchesCaches(s, s.flights[step.key].req, s.flights[step.key].stage.res); }
  }

  lemma WaitsForOne(content: Request -> Any, s: State, key: string, c: nat)
    requires FlightsTrue(content, s) && key in s.flights && c in s.flights[key].waiters
    ensures c < |s.callers| && key == FlightKey(s.callers[c].req)
  {
    hide FlightKey;
    assert FlightTrue(content, s, key, s.flights[key]);
  }

  lemma StaysOnTheWay(content: Request -> Any, s: State, step: Step, c: nat, r: Request, res: Result)
    requires Enabled(content, s, step) && FlightsTrue(content, s)
    requires OnTheWay(s, c, r, res) && (res.Ok? ==> HasType(r, res.val))
    ensures OnTheWay(After(content, s, step), c, r, res)
  {
    hide FlightKey, Keep, State.Cached, Honest, Classify, TrueFor, HasType, FlightTrue;
    if step.Store? { KeepTouchesCaches(s, s.flights[step.key].req, s.flights[step.key].stage.res); }
    if step.Deliver? {
      forall k | k in s.flights && c in s.flights[k].waiters
        ensures k == FlightKey(r)
      {
        WaitsForOne(content, s, k, c);
      }
    }
  }

  lemma {:induction false} OnTheWayThroughRun(content: Request -> Any, s: State, run: seq<Step>,
                                              c: nat, r: Request, res: Result)
    requires ContentOk(content) && Inv(content, s) && ValidRun(content, s, run)
    requires OnTheWay(s, c, r, res) && (res.Ok? ==> HasType(r, res.val))
    ensures OnTheWay(Run(content, s, run), c, r, res)
  {
    hide OnTheWay, After, Enabled;
    if run == [] {
    } else {
      OnTheWayThroughRun(content, s, run[..|run| - 1], c, r, res);
      RunForward(content, s, run[..|run| - 1]);
      StaysOnTheWay(content, Run(content, s, run[..|run| - 1]), run[|run| - 1], c, r, res);
    }
  }

  lemma {:induction false} HoldsThroughRun(content: Request -> Any, s: State, run: seq<Step>, key: string, res: Result)
    requires ValidRun(content, s, run) && Holds(s, key, res) && Deliver(key) !in run
    ensures Holds(Run(content, s, run), key, res)
  {
    hide Holds, After, Enabled;
    if run == [] {
    } else {
      assert run[|run| - 1] in run && forall x :: x in run[..|run| - 1] ==> x in run;
      HoldsThroughRun(content, s, run[..|run| - 1], key, res);
      HoldsUntilDelivered(content, Run(content, s, run[..|run| - 1]), run[|run| - 1], key, res);
    }
  }

  /** The flight found under the key of r is a flight for r. */
  lemma FlightFor(content: Request -> Any, s: State, key: string, r: Request)
    requires Inv(content, s) && key in s.flights && key == FlightKey(r)
    ensures s.flights[key].req == r
  {
    hide FlightKey;
    assert FlightTrue(content, s, key, s.flights[key]);
    FlightKeyInjective(r, s.flights[key].req);
  }

  lemma WaitingIsIn(content: Request -> Any, s: State, c: nat)
    requires Inv(content, s) && c < |s.callers| && s.callers[c].phase == Waiting(None)
    ensures FlightKey(s.callers[c].req) in s.flights && c in s.flights[FlightKey(s.callers[c].req)].waiters
  {
    hide FlightKey;
    assert CallerTrue(content, s, c, s.callers[c]);
  }

  lemma YieldsTyped(r: Request, reply: Reply, res: Result)
    requires Yields(r, reply, res)
    ensures res.Ok? ==> HasType(r, res.val)
  {
  }

  /** Over every run: once the node has answered a fetch, every caller that waits on that flight, from before
      the answer or joining before its delivery, returns exactly what the answer amounts to, the fetch error
      exactly when it is a failure; only a caller whose own context is done may return that instead. */
  lemma AnswerDelivered(content: Request -> Any, ttl: int, now: int, steps: seq<Step>, key: string, reply: Reply,
                        mid: seq<Step>, c: nat, more: seq<Step>) returns (res: Result)
    requires ContentOk(content) && ValidRun(content, Init(ttl, now), steps)
    requires Enabled(content, Run(content, Init(ttl, now), steps), Return(key, reply))
    requires var answered := After(content, Run(content, Init(ttl, now), steps), Return(key, reply));
             && ValidRun(content, answered, mid) && Deliver(key) !in mid
             && var s := Run(content, answered, mid);
                && c < |s.callers| && s.callers[c].phase == Waiting(None) && FlightKey(s.callers[c].req) == key
                && ValidRun(content, s, more)
    ensures var answered := After(content, Run(content, Init(ttl, now), steps), Return(key, reply));
            var s := Run(content, answered, mid);
            var r, k := s.callers[c].req, Run(content, s, more).callers;
            && Yields(r, reply, res) && c < |k|
            && (k[c].phase.Waiting? && k[c].phase.inbox.Some? ==> k[c].phase.inbox.value == res)
            && (k[c].phase.Returned? ==>
                  Conveys(res, k[c].phase.ret) || (k[c].phase.ret == ContextDone && k[c].cancelled))
  {
    hide Run, ValidRun, Init, FlightKey, Yields, Conveys, After, Enabled, Inv;
    var start := Run(content, Init(ttl, now), steps);
    ReturnYields(content, start, key, reply);
    var answered := After(content, start, Return(key, reply));
    var s := Run(content, answered, mid);
    InvHolds(content, ttl, now, steps);
    InvKept(content, start, Return(key, reply));
    RunForward(content, answered, mid);
    res := answered.flights[key].stage.res;
    HoldsThroughRun(content, answered, mid, key, res);
    FlightFor(content, start, key, s.callers[c].req);
    WaitingIsIn(content, s, c);
    YieldsTyped(s.callers[c].req, reply, res);
    OnTheWayThroughRun(content, s, more, c, s.callers[c].req, res);
  }

  // ----- from a caller's result back to the node's answer

  /** The node answered a fetch of r with this result. */
  ghost predicate Answered(steps: seq<Step>, r: Request, res: Result)
  {
    exists i :: 0 <= i < |steps| && steps[i].Return? && steps[i].key == FlightKey(r) && Yields(r, steps[i].reply, res)
  }

  /** Why caller c returned ret: its context is done, the cache answered its lookup, or the node did. */
  ghost predicate Explained(content: Request -> Any, steps: seq<Step>, c: nat, k: Caller, ret: Return)
  {
    || (ret == ContextDone && k.cancelled)
    || (ret == Value(content(k.req)) && Look(c) in steps)
    || exists res :: Conveys(res, ret) && Answered(steps, k.req, res)
  }

  ghost predicate FlightExplained(steps: seq<Step>, f: Flight)
  {
    f.stage.Fetched? || f.stage.Stored? ==> Answered(steps, f.req, f.stage.res)
  }

  ghost predicate CallerExplained(content: Request -> Any, steps: seq<Step>, c: nat, k: Caller)
  {
    match k.phase
    case Waiting(Some(res)) => Answered(steps, k.req, res)
    case Returned(ret) => Explained(content, steps, c, k, ret)
    case _ => true
  }

  ghost predicate AllExplained(content: Request -> Any, steps: seq<Step>, s: State)
  {
    && (forall key :: key in s.flights ==> FlightExplained(steps, s.flights[key]))
    && (forall c :: 0 <= c < |s.callers| ==> CallerExplained(content, steps, c, s.callers[c]))
  }

  lemma AnsweredStays(steps: seq<Step>, step: Step, r: Request, res: Result)
    requires Answered(steps, r, res)
    ensures Answered(steps + [step], r, res)
  {
    var i :| 0 <= i < |steps| && steps[i].Return? && steps[i].key == FlightKey(r) && Yields(r, steps[i].reply, res);
    assert (steps + [step])[i] == steps[i];
  }

  lemma ExplainedStays(content: Request -> Any, steps: seq<Step>, step: Step, c: nat, k: Caller)
    requires CallerExplained(content, steps, c, k)
    ensures CallerExplained(content, steps + [step], c, k)
    ensures CallerExplained(content, steps + [step], c, k.(cancelled := true))
  {
    hide Answered;
    forall res | Answered(steps, k.req, res)
      ensures Answered(steps + [step], k.req, res)
    {
      AnsweredStays(steps, step, k.req, res);
    }
  }

  lemma ReturnAnswers(content: Request -> Any, steps: seq<Step>, s: State, key: string, reply: Reply)
    requires Enabled(content, s, Return(key, reply)) && FlightsTrue(content, s)
    ensures FlightExplained(steps + [Return(key, reply)], After(content, s, Return(key, reply)).flights[key])
  {
    hide FlightKey, Yields;
    ReturnYields(content, s, key, reply);
    assert FlightTrue(content, s, key, s.flights[key]);
    assert (steps + [Return(key, reply)])[|steps|] == Return(key, reply);
  }

  lemma FlightsStayExplained(content: Request -> Any, steps: seq<Step>, s: State, step: Step)
    requires Enabled(content, s, step) && FlightsTrue(content, s) && AllExplained(content, steps, s)
    ensures forall key :: key in After(content, s, step).flights ==>
              FlightExplained(steps + [step], After(content, s, step).flights[key])
  {
    hide FlightKey, Keep, State.Cached, Honest, Received, Classify, Answered, Yields;
    var s' := After(content, s, step);
    if step.Store? { KeepTouchesCaches(s, s.flights[step.key].req, s.flights[step.key].stage.res); }
    if step.Return? { ReturnAnswers(content, steps, s, step.key, step.reply); }
    forall key | key in s'.flights
      ensures FlightExplained(steps + [step], s'.flights[key])
    {
      if key in s.flights {
        assert FlightExplained(steps, s.flights[key]);
        var stage := s.flights[key].stage;
        if stage.Fetched? || stage.Stored? { AnsweredStays(steps, step, s.flights[key].req, stage.res); }
      }
    }
  }

  lemma GiveUpExplained(content: Request -> Any, steps: seq<Step>, c: nat, k: Caller)
    requires k.cancelled
    ensures Explained(content, steps, c, k.(phase := Returned(ContextDone)), ContextDone)
  {
  }

  lemma LookExplained(content: Request -> Any, steps: seq<Step>, s: State, c: nat)
    requires Enabled(content, s, Look(c)) && Inv(content, s)
    ensures CallerExplained(content, steps + [Look(c)], c, After(content, s, Look(c)).callers[c])
  {
    hide FlightKey, State.Cached, ServedAt, Inv;
    ServedIsContent(content, s, s.callers[c].req);
    assert (steps + [Look(c)])[|steps|] == Look(c);
  }

  lemma ReceiveExplained(content: Request -> Any, steps: seq<Step>, s: State, c: nat)
    requires Enabled(content, s, Receive(c)) && Inv(content, s)
    requires CallerExplained(content, steps, c, s.callers[c])
    ensures CallerExplained(content, steps + [Receive(c)], c, After(content, s, Receive(c)).callers[c])
  {
    hide FlightKey, Answered;
    var k := s.callers[c];
    var res := k.phase.inbox.value;
    assert CallerTrue(content, s, c, k);
    AnsweredStays(steps, Receive(c), k.req, res);
    assert Conveys(res, Received(k.req, res));
  }

  lemma DeliverExplained(content: Request -> Any, steps: seq<Step>, s: State, key: string, c: nat)
    requires Enabled(content, s, Deliver(key)) && Inv(content, s) && AllExplained(content, steps, s)
    requires c < |s.callers| && c in s.flights[key].waiters
    ensures Answered(steps + [Deliver(key)], s.callers[c].req, s.flights[key].stage.res)
  {
    hide FlightKey, Answered;
    assert FlightTrue(content, s, key, s.flights[key]) && FlightExplained(steps, s.flights[key]);
    AnsweredStays(steps, Deliver(key), s.callers[c].req, s.flights[key].stage.res);
  }

  lemma CallersStayExplained(content: Request -> Any, steps: seq<Step>, s: State, step: Step, c: nat)
    requires Enabled(content, s, step) && Inv(content, s) && AllExplained(content, steps, s)
    requires c < |After(content, s, step).callers|
    ensures CallerExplained(content, steps + [step], c, After(content, s, step).callers[c])
  {
    hide FlightKey, Keep, State.Cached, Honest, Classify, Answered, Explained, Inv;
    if step.Store? { KeepTouchesCaches(s, s.flights[step.key].req, s.flights[step.key].stage.res); }
    if c < |s.callers| {
      assert CallerExplained(content, steps, c, s.callers[c]);
      ExplainedStays(content, steps, step, c, s.callers[c]);
      if step == Look(c) { LookExplained(content, steps, s, c); }
      if step == Receive(c) { ReceiveExplained(content, steps, s, c); }
      if step == GiveUp(c) { GiveUpExplained(content, steps + [step], c, s.callers[c]); }
      if step.Deliver? && c in s.flights[step.key].waiters { DeliverExplained(content, steps, s, step.key, c); }
    }
  }

  lemma InvFlights(content: Request -> Any, s: State)
    requires Inv(content, s)
    ensures FlightsTrue(content, s)
  {
  }

  lemma ByParts(content: Request -> Any, steps: seq<Step>, s: State)
    requires forall key :: key in s.flights ==> FlightExplained(steps, s.flights[key])
    requires forall c :: 0 <= c < |s.callers| ==> CallerExplained(content, steps, c, s.callers[c])
    ensures AllExplained(content, steps, s)
  {
  }

  lemma {:induction false} ExplainedHolds(content: Request -> Any, ttl: int, now: int, steps: seq<Step>)
    requires ContentOk(content) && ValidRun(content, Init(ttl, now), steps)
    ensures AllExplained(content, steps, Run(content, Init(ttl, now), steps))
  {
    hide After, Enabled, FlightExplained, CallerExplained, Inv, FlightsTrue;
    if steps == [] {
    } else {
      hide Init, AllExplained;
      var init, step := steps[..|steps| - 1], steps[|steps| - 1];
      var s := Run(content, Init(ttl, now), init);
      ExplainedHolds(content, ttl, now, init);
      InvHolds(content, ttl, now, init);
      InvFlights(content, s);
      FlightsStayExplained(content, init, s, step);
      assert init + [step] == steps;
      forall c | 0 <= c < |After(content, s, step).callers|
        ensures CallerExplained(content, steps, c, After(content, s, step).callers[c])
      {
        CallersStayExplained(content, init, s, step, c);
      }
      ByParts(content, steps, After(content, s, step));
    }
  }

  /** Cache transparency: in any run, whatever a caller returns is its own cancellation, the DA content of its
      key served by the cache, or exactly what the node answered to a fetch of its key. So a non-empty value
      is the published DA content of the key, an empty list or an error is the node's own, and the type
      assertion on the shared group never fails. */
  lemma LookupsAreTrue(content: Request -> Any, ttl: int, now: int, steps: seq<Step>, c: nat)
    requires ContentOk(content) && ValidRun(content, Init(ttl, now), steps)
    requires c < |Run(content, Init(ttl, now), steps).callers|
    ensures var s := Run(content, Init(ttl, now), steps);
            var k := s.callers[c];
            && k.phase != Returned(TypePanic)
            && (k.phase.Returned? ==> Explained(content, steps, c, k, k.phase.ret))
            && (k.phase.Returned? && k.phase.ret.Value? && k.phase.ret.val != BlobsVal([]) ==>
                  k.req in s.published && k.phase.ret.val == content(k.req))
  {
    hide After, Enabled, Init, Explained;
    InvHolds(content, ttl, now, steps);
    ExplainedHolds(content, ttl, now, steps);
    var s := Run(content, Init(ttl, now), steps);
    assert CallerTrue(content, s, c, s.callers[c]) && CallerExplained(content, steps, c, s.callers[c]);
  }

  /** In any run, a lookup returns the DA content at once, without a fetch, exactly when the cache still serves
      its key; otherwise it goes on to fetch. */
  lemma LookAnswers(content: Request -> Any, ttl: int, now: int, steps: seq<Step>, c: nat)
    requires ContentOk(content) && ValidRun(content, Init(ttl, now), steps)
    requires Enabled(content, Run(content, Init(ttl, now), steps), Look(c))
    ensures var s := Run(content, Init(ttl, now), steps);
            var after := After(content, s, Look(c));
            && (after.callers[c].phase == Returned(Value(content(s.callers[c].req)))
                <==> ServedAt(s, s.callers[c].req, s.now))
            && (after.callers[c].phase == Missed <==> !ServedAt(s, s.callers[c].req, s.now))
            && after.flights == s.flights
  {
    hide Run, ValidRun, Init, State.Cached, ServedAt;
    InvHolds(content, ttl, now, steps);
    var s := Run(content, Init(ttl, now), steps);
    ServedIsContent(content, s, s.callers[c].req);
  }

  /** No caller is ever stuck: in any run, one that has not returned can go on, or the call it waits on can. */
  lemma NoCallerStuck(content: Request -> Any, ttl: int, now: int, steps: seq<Step>, c: nat) returns (step: Step)
    requires ContentOk(content) && ValidRun(content, Init(ttl, now), steps)
    requires var s := Run(content, Init(ttl, now), steps); c < |s.callers| && !s.callers[c].phase.Returned?
    ensures var s := Run(content, Init(ttl, now), steps);
            var key := FlightKey(s.callers[c].req);
            && Enabled(content, s, step)
            && (step in {Look(c), Join(c), Receive(c), Store(key), Deliver(key)} || (step.Return? && step.key == key))
  {
    hide Run, ValidRun, Init, FlightKey;
    InvHolds(content, ttl, now, steps);
    var s := Run(content, Init(ttl, now), steps);
    var key := FlightKey(s.callers[c].req);
    match s.callers[c].phase {
      case Calling => step := Look(c);
      case Missed => step := Join(c);
      case Waiting(Some(_)) => step := Receive(c);
      case Waiting(None) =>
        WaitingIsIn(content, s, c);
        match s.flights[key].stage {
          case Running => step := Return(key, OtherError);
          case Fetched(_) => step := Store(key);
          case Stored(_) => step := Deliver(key);
        }
    }
  }
}
