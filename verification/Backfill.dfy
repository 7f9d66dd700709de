/** The backfill loop and the reconnect loop of pkg/exporters/verifier/verifier.go, with every RPC
    reply and every cancellation as an input. */
module Backfill {
  import opened Uint64
  import opened HeaderStream

  /** A block header, reduced to what the verifier reads of it. */
  datatype Header = Header(height: Height, hasTransactions: bool)

  // ----- the window that a gap keeps

  /** to - from + 1 as uint64 computes it. */
  function GapSize(b: Interval): Height { (b.to - b.from + 1) % LIMIT }

  function Dropped(b: Interval): nat
  {
    if GapSize(b) > MAX_BACKFILL then GapSize(b) - MAX_BACKFILL else 0
  }

  /** The first height that is fetched. */
  function WindowStart(b: Interval): Height
  {
    if GapSize(b) > MAX_BACKFILL then (b.to - MAX_BACKFILL + 1) % LIMIT else b.from
  }

  /** What befalls one height: fetched and enqueued, fetch failed, or cancelled before it was enqueued. */
  datatype Reply = Enqueued(header: Header) | FetchFailed | Cancelled

  /** The headers enqueued for heights from..next, in order. */
  ghost function EnqueuedOf(reply: Height -> Reply, from: int, next: int): seq<Header>
    requires 0 <= from <= next <= LIMIT
    decreases next
  {
    if from == next then []
    else EnqueuedOf(reply, from, next - 1) +
         match reply(next - 1) { case Enqueued(h) => [h] case _ => [] }
  }

  /** The heights of from..next whose fetch failed. */
  ghost function FailedFetches(reply: Height -> Reply, from: int, next: int): set<int>
    requires 0 <= from <= next <= LIMIT
  {
    set h | from <= h < next && reply(h).FetchFailed?
  }

  /** heights are, in ascending order, those of from..next whose fetch succeeded, and sent are their fetched
      headers, each as it came. */
  ghost predicate SentInOrder(reply: Height -> Reply, from: int, next: int, heights: seq<Height>, sent: seq<Header>)
    requires 0 <= from <= next <= LIMIT
  {
    && (forall i, j :: 0 <= i < j < |heights| ==> heights[i] < heights[j])
    && (forall h :: h in heights <==> from <= h < next && reply(h).Enqueued?)
    && |sent| == |heights|
    && (forall i :: 0 <= i < |heights| ==> reply(heights[i]) == Enqueued(sent[i]))
  }

  lemma SentOneMore(reply: Height -> Reply, from: int, next: int, heights: seq<Height>, sent: seq<Header>)
    requires 0 <= from <= next < LIMIT && SentInOrder(reply, from, next, heights, sent)
    ensures if reply(next).Enqueued?
            then SentInOrder(reply, from, next + 1, heights + [next], sent + [reply(next).header])
            else SentInOrder(reply, from, next + 1, heights, sent)
  {
    assert forall i :: 0 <= i < |heights| ==> heights[i] in heights;
    if reply(next).Enqueued? {
      var more: seq<Height> := heights + [next];
      assert forall h :: h in more <==> h in heights || h == next;
    }
  }

  lemma OneMoreFetch(reply: Height -> Reply, from: int, next: int)
    requires 0 <= from <= next < LIMIT
    ensures var was, now := FailedFetches(reply, from, next), FailedFetches(reply, from, next + 1);
            |now| == |was| + if reply(next).FetchFailed? then 1 else 0
  {
    var was, now := FailedFetches(reply, from, next), FailedFetches(reply, from, next + 1);
    if reply(next).FetchFailed? {
      assert now == was + {next};
    } else {
      assert now == was;
    }
  }

  lemma EnqueuedOneMore(reply: Height -> Reply, from: int, next: int)
    requires 0 <= from <= next < LIMIT
    ensures EnqueuedOf(reply, from, next + 1)
         == EnqueuedOf(reply, from, next) + if reply(next).Enqueued? then [reply(next).header] else []
  {
  }

  lemma NoFetchYet(reply: Height -> Reply, from: int)
    requires 0 <= from <= LIMIT
    ensures FailedFetches(reply, from, from) == {} && SentInOrder(reply, from, from, [], [])
    ensures EnqueuedOf(reply, from, from) == []
  {
  }

  /** backfill: newest 1000 heights only, oldest first, skipping heights whose fetch fails, until done or
      cancelled. `next` is the height the loop ended at, `heights` those whose headers were enqueued. */
  method RunBackfill(from: uint64, to: uint64, reply: Height -> Reply)
    returns (dropped: uint64, sent: seq<Header>, ghost skipped: nat, next: uint64, ghost heights: seq<Height>)
    requires from <= to && to as int < LIMIT - 1
    ensures dropped as int == Dropped(Interval(from as int, to as int))
    ensures WindowStart(Interval(from as int, to as int)) <= next as int <= to as int + 1
    ensures sent == EnqueuedOf(reply, WindowStart(Interval(from as int, to as int)), next as int)
    ensures next as int == to as int + 1 || reply(next as int).Cancelled?
    ensures dropped as int + |sent| + skipped + (to as int - next as int + 1) == to as int - from as int + 1
    ensures SentInOrder(reply, from as int + dropped as int, next as int, heights, sent)
    ensures skipped == |FailedFetches(reply, from as int + dropped as int, next as int)|
    ensures dropped as int == if to as int - from as int + 1 > 1000 then to as int - from as int + 1 - 1000 else 0
  {
    hide FailedFetches, SentInOrder, EnqueuedOf;
    var start := from;
    dropped := 0;
    var n := to - from + 1;
    if n > 1000 {
      dropped := n - 1000;
      start := to - 1000 + 1;
    }
    sent, skipped, heights := [], 0, [];
    next := start;
    NoFetchYet(reply, start as int);
    while next <= to
      invariant start <= next <= to + 1
      invariant sent == EnqueuedOf(reply, start as int, next as int)
      invariant |sent| + skipped == next as int - start as int
      invariant SentInOrder(reply, start as int, next as int, heights, sent)
      invariant skipped == |FailedFetches(reply, start as int, next as int)|
      decreases LIMIT - next as int
    {
      OneMoreFetch(reply, start as int, next as int);
      SentOneMore(reply, start as int, next as int, heights, sent);
      EnqueuedOneMore(reply, start as int, next as int);
      match reply(next as int) {
        case Enqueued(header) =>
          sent, heights := sent + [header], heights + [next as int];
        case FetchFailed => skipped := skipped + 1;
        case Cancelled => return;
      }
      next := next + 1;
    }
  }

  lemma {:induction false} WindowHeights(b: Interval, reply: Height -> Reply, next: int, i: nat)
    requires b.from <= b.to < LIMIT - 1
    requires forall h :: b.from <= h <= b.to ==> reply(h).Enqueued?
    requires WindowStart(b) <= next <= b.to + 1
    ensures var sent := EnqueuedOf(reply, WindowStart(b), next);
            |sent| == next - WindowStart(b) && (i < |sent| ==> sent[i] == reply(WindowStart(b) + i).header)
    decreases next
  {
    if next == WindowStart(b) {
    } else {
      WindowHeights(b, reply, next - 1, i);
      assert b.from <= next - 1 <= b.to;
    }
  }

  /** With no fetch error and no cancellation, exactly the headers of the newest min(gap, 1000) heights are
      enqueued, each as it was fetched, in ascending order. */
  lemma NewestInOrder(b: Interval, reply: Height -> Reply, i: nat)
    requires b.from <= b.to < LIMIT - 1
    requires forall h :: b.from <= h <= b.to ==> reply(h).Enqueued?
    ensures b.from <= WindowStart(b) <= b.to
    ensures var sent := EnqueuedOf(reply, WindowStart(b), b.to + 1);
            && |sent| == (if b.to - b.from + 1 < 1000 then b.to - b.from + 1 else 1000)
            && (i < |sent| ==> sent[i] == reply(b.to - |sent| + 1 + i).header)
  {
    WindowHeights(b, reply, b.to + 1, i);
  }

  // ----- reconnecting

  /** One re-subscription attempt, after its wait. */
  datatype Attempt = Subscribed | Refused

  const MAX_BACKOFF: int := 60_000_000_000

  function Pow2(k: nat): int { if k == 0 then 1 else 2 * Pow2(k - 1) }

  /** The wait before attempt k: the initial one doubled k times, capped at 60 s from the first doubling on. */
  function Backoff(initial: int, k: nat): int
  {
    if k == 0 then initial
    else if initial * Pow2(k) < MAX_BACKOFF then initial * Pow2(k)
    else MAX_BACKOFF
  }

  lemma DoublingIsClosedForm(initial: int, k: nat)
    ensures Backoff(initial, k + 1) ==
            if Backoff(initial, k) * 2 < MAX_BACKOFF then Backoff(initial, k) * 2 else MAX_BACKOFF
  {
    assert initial * Pow2(k + 1) == 2 * (initial * Pow2(k));
  }

  /** reconnectSubscription: wait, try, double the wait on refusal. `attempts` are the node's answers and
      `cancelAt` the number of waits that pass before the context is cancelled. */
  method Reconnect(initial: int, attempts: seq<Attempt>, cancelAt: nat) returns (waits: seq<int>, connected: bool)
    requires cancelAt <= |attempts|
    ensures forall k :: 0 <= k < |waits| ==> waits[k] == Backoff(initial, k)
    ensures waits != [] ==> waits[0] == initial
    ensures forall k :: 0 <= k < |waits| - 1 ==>
              waits[k + 1] == if waits[k] * 2 < 60_000_000_000 then waits[k] * 2 else 60_000_000_000
    ensures |waits| <= cancelAt && (!connected ==> |waits| == cancelAt)
    ensures connected <==> exists k :: 0 <= k < cancelAt && attempts[k].Subscribed?
    ensures connected ==> |waits| > 0 && attempts[|waits| - 1].Subscribed?
    ensures forall k :: 0 <= k < |waits| - 1 ==> attempts[k].Refused?
  {
    var backoff := initial;
    waits := [];
    while |waits| < cancelAt
      invariant |waits| <= cancelAt
      invariant backoff == Backoff(initial, |waits|)
      invariant forall k :: 0 <= k < |waits| ==> waits[k] == Backoff(initial, k) && attempts[k].Refused?
      invariant forall k :: 0 <= k < |waits| - 1 ==>
                  waits[k + 1] == if waits[k] * 2 < MAX_BACKOFF then waits[k] * 2 else MAX_BACKOFF
      invariant waits != [] ==>
                  backoff == if waits[|waits| - 1] * 2 < MAX_BACKOFF then waits[|waits| - 1] * 2 else MAX_BACKOFF
      decreases cancelAt - |waits|
    {
      DoublingIsClosedForm(initial, |waits|);
      waits := waits + [backoff];
      if attempts[|waits| - 1].Subscribed? { return waits, true; }
      backoff := if backoff * 2 < MAX_BACKOFF then backoff * 2 else MAX_BACKOFF;
    }
    connected := false;
  }
}
