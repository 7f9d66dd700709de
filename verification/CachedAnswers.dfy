/** How long a fetched answer is served, and exactly when a fetch repeats an answer that is already cached:
    the runs of the DA lookups seen from one key. */
module CachedAnswers {
  import opened Options
  import opened TtlCache
  import opened SharedFetch

  /** The cache holds an entry for r that is still served at instant t. */
  ghost predicate ServedAt(s: State, r: Request, t: int)
  {
    match r
    case TimestampOf(h) => h in s.timestamps && t <= s.timestamps[h].expires
    case BlobsAt(h, ns) => (h, ns) in s.blobs && t <= s.blobs[(h, ns)].expires
  }

  /** The step stores a success for r that is not empty. */
  ghost predicate StoresAnswer(s: State, step: Step, r: Request)
  {
    && step == Store(FlightKey(r)) && FlightKey(r) in s.flights
    && s.flights[FlightKey(r)].stage.Fetched?
    && s.flights[FlightKey(r)].stage.res.Ok? && !NothingThere(s.flights[FlightKey(r)].stage.res.val)
  }

  lemma ClockForward(content: Request -> Any, s: State, step: Step)
    requires Enabled(content, s, step)
    ensures s.now <= After(content, s, step).now && After(content, s, step).ttl == s.ttl
  {
    hide FlightKey;
  }

  lemma ServedByCaches(s: State, s': State, r: Request, t: int)
    requires s.timestamps == s'.timestamps && s.blobs == s'.blobs
    ensures ServedAt(s, r, t) <==> ServedAt(s', r, t)
  {
  }

  lemma KeepServes(content: Request -> Any, s: State, q: Request, res: Result, r: Request, t: int)
    requires s.now <= t && TrueResult(content, s.published, q, res)
    ensures ServedAt(Keep(s, q, res), r, t) <==>
            if q == r && res.Ok? && !NothingThere(res.val) then t <= s.now + s.ttl else ServedAt(s, r, t)
  {
  }

  /** One step, for any instant from then on: storing an answer serves it for the time to live, and nothing
      else, no sweep and no store under another key, makes a difference. */
  lemma StepServes(content: Request -> Any, s: State, step: Step, r: Request, t: int)
    requires Enabled(content, s, step) && Inv(content, s) && After(content, s, step).now <= t
    ensures ServedAt(After(content, s, step), r, t) <==>
            if StoresAnswer(s, step, r) then t <= s.now + s.ttl else ServedAt(s, r, t)
  {
    if step.Store? {
      hide FlightKey, Keep, ServedAt;
      ClockForward(content, s, step);
      var f := s.flights[step.key];
      assert FlightTrue(content, s, step.key, f);
      if step.key == FlightKey(r) { FlightKeyInjective(r, f.req); }
      KeepServes(content, s, f.req, f.stage.res, r, t);
      ServedByCaches(Keep(s, f.req, f.stage.res), After(content, s, step), r, t);
    } else {
      hide FlightKey, Keep;
    }
  }

  lemma {:induction false} RunForward(content: Request -> Any, s: State, run: seq<Step>)
    requires ContentOk(content) && Inv(content, s) && ValidRun(content, s, run)
    ensures Inv(content, Run(content, s, run))
    ensures s.now <= Run(content, s, run).now && Run(content, s, run).ttl == s.ttl
  {
    hide Inv, After, Enabled;
    if run == [] {
    } else {
      var was := Run(content, s, run[..|run| - 1]);
      RunForward(content, s, run[..|run| - 1]);
      InvKept(content, was, run[|run| - 1]);
      ClockForward(content, was, run[|run| - 1]);
    }
  }

  // ----- a stored answer is served for its time to live

  lemma {:induction false} StaysServed(content: Request -> Any, s: State, run: seq<Step>, r: Request, t: int)
    requires ContentOk(content) && Inv(content, s) && ValidRun(content, s, run)
    requires ServedAt(s, r, t) && t <= s.now + s.ttl && Run(content, s, run).now <= t
    ensures ServedAt(Run(content, s, run), r, t)
  {
    hide Inv, After, Enabled, ServedAt, StoresAnswer;
    if run == [] {
    } else {
      var init, step := run[..|run| - 1], run[|run| - 1];
      RunForward(content, s, init);
      ClockForward(content, Run(content, s, init), step);
      StaysServed(content, s, init, r, t);
      StepServes(content, Run(content, s, init), step, r, t);
    }
  }

  /** The cache answers with the DA content, and answers whenever the entry is still served. */
  lemma ServedIsContent(content: Request -> Any, s: State, r: Request)
    requires Inv(content, s)
    ensures s.Cached(r) == if ServedAt(s, r, s.now) then Some(content(r)) else None
  {
  }

  lemma ServedEarlier(s: State, r: Request, t: int)
    requires ServedAt(s, r, t) && s.now <= t
    ensures ServedAt(s, r, s.now)
  {
  }

  lemma StartClock(content: Request -> Any, ttl: int, now: int, steps: seq<Step>)
    requires ContentOk(content) && ValidRun(content, Init(ttl, now), steps)
    ensures Run(content, Init(ttl, now), steps).ttl == ttl
  {
    hide ValidRun, Run;
    EmptyTrue(content, ttl, now);
    RunForward(content, Init(ttl, now), steps);
  }

  /** Storing a success that is not empty makes it the cached answer for its key until the time to live has
      passed, through any further run: other stores and their sweeps, stores of the same key, callers and
      cancellations. Storing an empty or failed result leaves both caches as they were. */
  lemma StoredIsServed(content: Request -> Any, ttl: int, now: int, steps: seq<Step>, key: string, more: seq<Step>)
    requires ContentOk(content) && ValidRun(content, Init(ttl, now), steps)
    requires Enabled(content, Run(content, Init(ttl, now), steps), Store(key))
    requires ValidRun(content, After(content, Run(content, Init(ttl, now), steps), Store(key)), more)
    ensures var s := Run(content, Init(ttl, now), steps);
            var f := s.flights[key];
            var stored := After(content, s, Store(key));
            if f.stage.res.Ok? && !NothingThere(f.stage.res.val)
            then Run(content, stored, more).now <= s.now + ttl
                 ==> Run(content, stored, more).Cached(f.req) == Some(f.stage.res.val)
            else stored.timestamps == s.timestamps && stored.blobs == s.blobs
  {
    hide Run, ValidRun, Init, FlightKey, ServedAt;
    InvHolds(content, ttl, now, steps);
    StartClock(content, ttl, now, steps);
    var s := Run(content, Init(ttl, now), steps);
    var f, stored := s.flights[key], After(content, s, Store(key));
    assert FlightTrue(content, s, key, f);
    InvKept(content, s, Store(key));
    ClockForward(content, s, Store(key));
    if f.stage.res.Ok? && !NothingThere(f.stage.res.val) && Run(content, stored, more).now <= s.now + ttl {
      RunForward(content, stored, more);
      StepServes(content, s, Store(key), f.req, s.now + ttl);
      StaysServed(content, stored, more, f.req, s.now + ttl);
      ServedEarlier(Run(content, stored, more), f.req, s.now + ttl);
      ServedIsContent(content, Run(content, stored, more), f.req);
    }
  }

  // ----- exactly when an answer is fetched again

  /** Step i of the run stores an answer for r that is still served at instant t. */
  ghost predicate StoredUntil(content: Request -> Any, s: State, run: seq<Step>, i: int, r: Request, t: int)
  {
    && 0 <= i < |run| && ValidRun(content, s, run[..i])
    && StoresAnswer(Run(content, s, run[..i]), run[i], r) && t <= Run(content, s, run[..i]).now + s.ttl
  }

  ghost predicate StoredSince(content: Request -> Any, s: State, run: seq<Step>, r: Request, t: int)
  {
    exists i :: StoredUntil(content, s, run, i, r, t)
  }

  lemma MissStays(s: State, r: Request, t: int)
    requires !ServedAt(s, r, s.now) && s.now <= t
    ensures !ServedAt(s, r, t)
  {
  }

  lemma NothingStoredYet(content: Request -> Any, s: State, r: Request, t: int)
    ensures !StoredSince(content, s, [], r, t)
  {
  }

  lemma {:induction false} PrefixEarlier(content: Request -> Any, s: State, run: seq<Step>, i: nat)
    requires ValidRun(content, s, run) && i <= |run|
    ensures ValidRun(content, s, run[..i]) && Run(content, s, run[..i]).now <= Run(content, s, run).now
  {
    hide After, Enabled;
    if i == |run| {
      assert run[..i] == run;
    } else {
      var init := run[..|run| - 1];
      assert init[..i] == run[..i];
      PrefixEarlier(content, s, init, i);
      ClockForward(content, Run(content, s, init), run[|run| - 1]);
    }
  }

  lemma StoredSinceGrows(content: Request -> Any, s: State, run: seq<Step>, r: Request, t: int)
    requires ContentOk(content) && Inv(content, s) && ValidRun(content, s, run) && run != []
    ensures var init := run[..|run| - 1];
            StoredSince(content, s, run, r, t) <==>
            if StoresAnswer(Run(content, s, init), run[|run| - 1], r) then t <= Run(content, s, init).now + s.ttl
            else StoredSince(content, s, init, r, t)
  {
    hide Inv, StoresAnswer, Run, After, Enabled;
    var k := |run| - 1;
    assert ValidRun(content, s, run[..k]);
    hide ValidRun;
    assert forall i :: 0 <= i <= k ==> run[..k][..i] == run[..i];
    if StoredSince(content, s, run[..k], r, t) {
      var i :| StoredUntil(content, s, run[..k], i, r, t);
      assert StoredUntil(content, s, run, i, r, t);
      PrefixEarlier(content, s, run[..k], i);
    }
    if StoredSince(content, s, run, r, t) {
      var i :| StoredUntil(content, s, run, i, r, t);
      PrefixEarlier(content, s, run[..k], i);
      if i < k { assert StoredUntil(content, s, run[..k], i, r, t); }
    }
    assert StoresAnswer(Run(content, s, run[..k]), run[k], r) && t <= Run(content, s, run[..k]).now + s.ttl
           ==> StoredUntil(content, s, run, k, r, t);
  }

  /** From a state in which the lookup of r misses, the answer is served at t exactly when a step since then
      stored it and its time to live has not passed at t. */
  lemma {:induction false} ServedExactly(content: Request -> Any, s: State, run: seq<Step>, r: Request, t: int)
    requires ContentOk(content) && Inv(content, s) && ValidRun(content, s, run)
    requires !ServedAt(s, r, s.now) && Run(content, s, run).now <= t
    ensures ServedAt(Run(content, s, run), r, t) <==> StoredSince(content, s, run, r, t)
  {
    hide Inv, After, Enabled, StoresAnswer, StoredUntil;
    if run == [] {
      hide ServedAt;
      MissStays(s, r, t);
      NothingStoredYet(content, s, r, t);
    } else {
      hide ServedAt, StoredSince;
      var init, step := run[..|run| - 1], run[|run| - 1];
      RunForward(content, s, init);
      ClockForward(content, Run(content, s, init), step);
      ServedExactly(content, s, init, r, t);
      StepServes(content, Run(content, s, init), step, r, t);
      StoredSinceGrows(content, s, run, r, t);
    }
  }

  /** Caller c, about to look, misses the cache. */
  ghost predicate Misses(s: State, c: nat)
  {
    c < |s.callers| && s.callers[c].phase.Calling? && s.Cached(s.callers[c].req).None?
  }

  /** Caller c, about to join, starts a fetch of an answer that the cache holds. */
  ghost predicate FetchesAgain(s: State, c: nat)
  {
    && c < |s.callers| && s.callers[c].phase.Missed?
    && FlightKey(s.callers[c].req) !in s.flights && s.Cached(s.callers[c].req).Some?
  }

  lemma StepKeepsRequest(content: Request -> Any, s: State, step: Step, c: nat)
    requires Enabled(content, s, step) && c < |s.callers|
    ensures c < |After(content, s, step).callers| && After(content, s, step).callers[c].req == s.callers[c].req
  {
    hide FlightKey, State.Cached, Honest, Received;
  }

  /** A caller keeps its request. */
  lemma {:induction false} SameRequest(content: Request -> Any, s: State, run: seq<Step>, c: nat)
    requires ValidRun(content, s, run) && c < |s.callers|
    ensures c < |Run(content, s, run).callers| && Run(content, s, run).callers[c].req == s.callers[c].req
  {
    hide After, Enabled;
    if run == [] {
    } else {
      SameRequest(content, s, run[..|run| - 1], c);
      StepKeepsRequest(content, Run(content, s, run[..|run| - 1]), run[|run| - 1], c);
    }
  }

  /** Over every run: a caller that missed the cache starts a fetch although the answer is cached by then,
      exactly when it finds no call of its key running and some call of that key stored an answer between
      the miss and the join whose time to live has not passed. */
  lemma FetchesAgainExactly(content: Request -> Any, ttl: int, now: int, steps: seq<Step>, c: nat, mid: seq<Step>)
    requires ContentOk(content) && ValidRun(content, Init(ttl, now), steps)
    requires Misses(Run(content, Init(ttl, now), steps), c)
    requires var missed := After(content, Run(content, Init(ttl, now), steps), Look(c));
             && ValidRun(content, missed, mid)
             && Enabled(content, Run(content, missed, mid), Join(c))
    ensures var missed := After(content, Run(content, Init(ttl, now), steps), Look(c));
            var s, r := Run(content, missed, mid), missed.callers[c].req;
            FetchesAgain(s, c) <==>
            FlightKey(r) !in s.flights && StoredSince(content, missed, mid, r, s.now)
  {
    hide Run, ValidRun, Init, FlightKey, ServedAt, StoredSince, Inv;
    var start := Run(content, Init(ttl, now), steps);
    InvHolds(content, ttl, now, steps);
    InvKept(content, start, Look(c));
    var missed, r := After(content, start, Look(c)), start.callers[c].req;
    ServedIsContent(content, start, r);
    ServedIsContent(content, missed, r);
    CachedIgnoresCallers(start, missed, r);
    ServedExactly(content, missed, mid, r, Run(content, missed, mid).now);
    RunForward(content, missed, mid);
    ServedIsContent(content, Run(content, missed, mid), r);
    SameRequest(content, missed, mid, c);
  }
}
