/** The exporter's main loop seen as a loop over a stream of header heights: gap detection,
    the backfill loop it starts, and the reconnect loop (pkg/exporters/verifier/verifier.go). */
module HeaderStream {
  import opened Uint64

  const MAX_BACKFILL: int := 1000

  datatype Interval = Interval(from: Height, to: Height)

  ghost predicate Inside(h: int, b: Interval) { b.from <= h <= b.to }

  /** lastHeight != 0 && height > lastHeight+1, in uint64 arithmetic. */
  predicate OpensGap(last: Height, height: Height)
  {
    last != 0 && height > Next(last)
  }

  /** The heights a gap opened by `height` leaves to backfill. */
  function GapBelow(last: Height, height: Height): (b: Interval)
    requires OpensGap(last, height)
    ensures b.from <= b.to < LIMIT - 1
  {
    Interval(Next(last), height - 1)
  }

  function Max(a: Height, b: Height): Height { if a < b then b else a }

  /** lastHeight after the stream. */
  function Last(stream: seq<Height>): Height
  {
    if stream == [] then 0 else Max(Last(stream[..|stream| - 1]), stream[|stream| - 1])
  }

  /** The backfills the stream starts, in order. */
  function Intervals(stream: seq<Height>): seq<Interval>
  {
    if stream == [] then [] else
      var init, height := stream[..|stream| - 1], stream[|stream| - 1];
      Intervals(init) + if OpensGap(Last(init), height) then [GapBelow(Last(init), height)] else []
  }

  /** The main loop's height bookkeeping. */
  method FollowHeaders(stream: seq<Height>) returns (lastHeight: Height, backfills: seq<Interval>)
    ensures lastHeight == Last(stream)
    ensures backfills == Intervals(stream)
  {
    lastHeight, backfills := 0, [];
    for i := 0 to |stream|
      invariant lastHeight == Last(stream[..i])
      invariant backfills == Intervals(stream[..i])
    {
      assert stream[..i + 1][..i] == stream[..i];
      var height := stream[i];
      if OpensGap(lastHeight, height) {
        backfills := backfills + [GapBelow(lastHeight, height)];
      }
      lastHeight := Max(lastHeight, height);
    }
    assert stream[..|stream|] == stream;
  }

  // ----- coverage

  lemma {:induction false} LastBounds(stream: seq<Height>)
    ensures forall i :: 0 <= i < |stream| ==> stream[i] <= Last(stream)
    ensures stream != [] ==> Last(stream) in stream
  {
    if stream == [] {
    } else {
      LastBounds(stream[..|stream| - 1]);
    }
  }

  /** h was received live or lies in a backfill interval. */
  ghost predicate Seen(stream: seq<Height>, h: int)
  {
    h in stream || exists b :: b in Intervals(stream) && Inside(h, b)
  }

  /** Everything from the first received height up to lastHeight was seen. */
  ghost predicate Covered(stream: seq<Height>)
    requires stream != []
  {
    forall h :: stream[0] <= h <= Last(stream) ==> Seen(stream, h)
  }

  /** Only height 0 came so far and now a height above 1 arrives: lastHeight 0 reads as "none seen". */
  ghost predicate SkipsFromZero(stream: seq<Height>, n: int)
    requires 0 <= n < |stream|
  {
    n > 0 && Last(stream[..n]) == 0 && stream[n] > 1
  }

  lemma SeenGrows(stream: seq<Height>, h: int)
    requires stream != [] && Seen(stream[..|stream| - 1], h)
    ensures Seen(stream, h)
  {
    var init := stream[..|stream| - 1];
    if h !in init {
      var b :| b in Intervals(init) && Inside(h, b);
      assert b in Intervals(stream);
    }
  }

  lemma {:induction false} CoveredUpTo(stream: seq<Height>, n: nat)
    requires 0 < n <= |stream|
    requires forall m :: 0 <= m < |stream| ==> !SkipsFromZero(stream, m)
    ensures Covered(stream[..n])
  {
    var upTo, init, height := stream[..n], stream[..n - 1], stream[n - 1];
    assert upTo[..n - 1] == init;
    LastBounds(init);
    if n > 1 {
      CoveredUpTo(stream, n - 1);
      assert !SkipsFromZero(stream, n - 1);
    }
    forall h | upTo[0] <= h <= Last(upTo)
      ensures Seen(upTo, h)
    {
      assert height in upTo && init <= upTo;
      if n > 1 && h <= Last(init) {
        SeenGrows(upTo, h);
      } else if h < height {
        assert Inside(h, GapBelow(Last(init), height));
        assert GapBelow(Last(init), height) in Intervals(upTo);
      }
    }
  }

  lemma {:induction false} NoGapAtZero(stream: seq<Height>)
    requires Last(stream) == 0
    ensures Intervals(stream) == []
  {
    if stream == [] {
    } else {
      NoGapAtZero(stream[..|stream| - 1]);
    }
  }

  lemma SkipUncovered(stream: seq<Height>, n: nat)
    requires n < |stream| && SkipsFromZero(stream, n)
    ensures !Covered(stream[..n + 1])
  {
    var upTo := stream[..n + 1];
    assert upTo[..n] == stream[..n];
    LastBounds(stream[..n]);
    NoGapAtZero(stream[..n]);
    assert upTo[0] == stream[..n][0] == 0;
    assert forall i :: 0 <= i < n ==> upTo[i] == stream[..n][i];
    assert upTo[n] > 1;
    assert 1 !in upTo;
    assert !Seen(upTo, 1);
  }

  /** No height between the first one received and lastHeight is ever overlooked, at any point of any
      stream of uint64 heights, exactly when no jump is made while lastHeight is still 0. */
  lemma GapCoverage(stream: seq<Height>)
    ensures (forall n :: 0 < n <= |stream| ==> Covered(stream[..n]))
       <==> (forall n :: 0 <= n < |stream| ==> !SkipsFromZero(stream, n))
  {
    if forall n :: 0 <= n < |stream| ==> !SkipsFromZero(stream, n) {
      forall n | 0 < n <= |stream|
        ensures Covered(stream[..n])
      {
        CoveredUpTo(stream, n);
      }
    } else {
      var n :| 0 <= n < |stream| && SkipsFromZero(stream, n);
      SkipUncovered(stream, n);
    }
  }

  // ----- starting above

  /** The backfill that height n starts, if any, begins just above everything received
      and everything backfilled before it. */
  ghost predicate StartsAbove(stream: seq<Height>, n: int)
    requires 0 <= n < |stream|
  {
    OpensGap(Last(stream[..n]), stream[n]) ==>
      var from := GapBelow(Last(stream[..n]), stream[n]).from;
      && (forall i :: 0 <= i < n ==> stream[i] < from)
      && (forall b :: b in Intervals(stream[..n]) ==> b.to < from)
  }

  /** A height after 2^64 - 1 was received: lastHeight+1 wraps to 0. */
  ghost predicate WrapsAt(stream: seq<Height>, n: int)
    requires 0 <= n < |stream|
  {
    Last(stream[..n]) == LIMIT - 1 && stream[n] > 0
  }

  lemma {:induction false} IntervalsBelowLast(stream: seq<Height>)
    ensures forall b :: b in Intervals(stream) ==> b.to < Last(stream)
  {
    if stream == [] {
    } else {
      IntervalsBelowLast(stream[..|stream| - 1]);
    }
  }

  /** Every backfill starts above everything received or backfilled before it, late and repeated headers
      included, exactly when no nonzero header follows height 2^64 - 1. */
  lemma BackfillsStartAbove(stream: seq<Height>)
    ensures (forall n :: 0 <= n < |stream| ==> StartsAbove(stream, n))
       <==> (forall n :: 0 <= n < |stream| ==> !WrapsAt(stream, n))
  {
    forall n | 0 <= n < |stream|
      ensures StartsAbove(stream, n) <==> !WrapsAt(stream, n)
    {
      LastBounds(stream[..n]);
      IntervalsBelowLast(stream[..n]);
      assert forall i :: 0 <= i < n ==> stream[..n][i] == stream[i];
      if WrapsAt(stream, n) {
        assert GapBelow(Last(stream[..n]), stream[n]).from == 0;
        assert stream[..n] != [];
        assert stream[0] >= 0;
      }
    }
  }

  // ----- heights backfilled again

  /** The gap that height n opens holds a height received or backfilled before. */
  ghost predicate RevisitsAt(stream: seq<Height>, n: int)
    requires 0 <= n < |stream|
  {
    && OpensGap(Last(stream[..n]), stream[n])
    && exists h :: Inside(h, GapBelow(Last(stream[..n]), stream[n])) && Seen(stream[..n], h)
  }

  /** Height n follows height 2^64 - 1, and something below it came before or was backfilled after a wrap. */
  ghost predicate WrapsOver(stream: seq<Height>, n: int)
    requires 0 <= n < |stream|
  {
    WrapsAt(stream, n) && exists i :: 0 <= i < n && (stream[i] < stream[n] || WrapsAt(stream, i))
  }

  /** A gap opened at i is among the backfills from then on. */
  lemma {:induction false} GapBackfilled(stream: seq<Height>, i: nat, n: nat)
    requires i < n <= |stream| && OpensGap(Last(stream[..i]), stream[i])
    ensures GapBelow(Last(stream[..i]), stream[i]) in Intervals(stream[..n])
    decreases n
  {
    assert stream[..n][..n - 1] == stream[..n - 1];
    if i == n - 1 {
    } else {
      GapBackfilled(stream, i, n - 1);
    }
  }

  lemma WrapRevisits(stream: seq<Height>, n: nat)
    requires n < |stream| && WrapsOver(stream, n)
    ensures RevisitsAt(stream, n)
  {
    hide Last, Intervals;
    var gap := GapBelow(Last(stream[..n]), stream[n]);
    var i :| 0 <= i < n && (stream[i] < stream[n] || WrapsAt(stream, i));
    if stream[i] < stream[n] {
      assert Inside(stream[i], gap) && stream[..n][i] == stream[i];
    } else {
      GapBackfilled(stream, i, n);
      assert Inside(0, GapBelow(Last(stream[..i]), stream[i])) && Inside(0, gap);
    }
  }

  /** Every backfill was opened by some height of the stream. */
  lemma {:induction false} StartedAt(stream: seq<Height>, b: Interval) returns (i: nat)
    requires b in Intervals(stream)
    ensures i < |stream| && OpensGap(Last(stream[..i]), stream[i]) && b == GapBelow(Last(stream[..i]), stream[i])
  {
    var n := |stream| - 1;
    if b in Intervals(stream[..n]) {
      i := StartedAt(stream[..n], b);
      assert stream[..n][..i] == stream[..i];
    } else {
      i := n;
    }
  }

  lemma RevisitWraps(stream: seq<Height>, n: nat)
    requires n < |stream| && RevisitsAt(stream, n)
    ensures WrapsOver(stream, n)
  {
    hide Intervals;
    var was, gap := stream[..n], GapBelow(Last(stream[..n]), stream[n]);
    LastBounds(was);
    IntervalsBelowLast(was);
    var h :| Inside(h, gap) && Seen(was, h);
    assert WrapsAt(stream, n);
    if h in was {
      var i :| 0 <= i < n && was[i] == h;
      assert stream[i] < stream[n];
    } else {
      var b :| b in Intervals(was) && Inside(h, b);
      var i := StartedAt(was, b);
      assert was[..i] == stream[..i];
      if !WrapsAt(stream, i) {
        LastBounds(was[..i]);
        var j :| 0 <= j < i && was[..i][j] == Last(was[..i]);
        assert stream[j] == Last(was[..i]) < b.from <= h < stream[n];
      }
    }
  }

  /** A backfill revisits a height received or backfilled before exactly when the height that starts it
      follows height 2^64 - 1 and is above an earlier height or not the first to follow it. */
  lemma RevisitsExactly(stream: seq<Height>, n: nat)
    requires n < |stream|
    ensures RevisitsAt(stream, n) <==> WrapsOver(stream, n)
  {
    hide Last, Intervals;
    if WrapsOver(stream, n) {
      WrapRevisits(stream, n);
    }
    if RevisitsAt(stream, n) {
      RevisitWraps(stream, n);
    }
  }

  // ----- disjointness

  ghost predicate Apart(a: Interval, b: Interval) { a.to < b.from || b.to < a.from }

  ghost predicate PairwiseApart(bs: seq<Interval>)
  {
    forall i, j :: 0 <= i < j < |bs| ==> Apart(bs[i], bs[j])
  }

  /** Height n follows height 2^64 - 1 and is above the start of an earlier backfill. */
  ghost predicate WrapsIntoBackfill(stream: seq<Height>, n: int)
    requires 0 <= n < |stream|
  {
    WrapsAt(stream, n) && exists b :: b in Intervals(stream[..n]) && b.from < stream[n]
  }

  lemma SamePrefix(stream: seq<Height>, n: nat)
    requires n < |stream| - 1
    ensures WrapsIntoBackfill(stream, n) <==> WrapsIntoBackfill(stream[..|stream| - 1], n)
  {
    assert stream[..|stream| - 1][..n] == stream[..n];
  }

  lemma IntervalsSnoc(stream: seq<Height>)
    requires stream != []
    ensures var k := |stream| - 1;
            var was := Intervals(stream[..k]);
            Intervals(stream) == if OpensGap(Last(stream[..k]), stream[k])
                                 then was + [GapBelow(Last(stream[..k]), stream[k])] else was
  {
    hide Last;
  }

  lemma ApartFromGap(last: Height, height: Height, b: Interval)
    requires OpensGap(last, height) && b.to < last
    ensures Apart(b, GapBelow(last, height)) <==> !(last == LIMIT - 1 && b.from < height)
  {
  }

  lemma ApartSnoc(bs: seq<Interval>, b: Interval)
    ensures PairwiseApart(bs + [b]) <==> PairwiseApart(bs) && forall a :: a in bs ==> Apart(a, b)
  {
    hide Apart;
    var all := bs + [b];
    assert forall i :: 0 <= i < |bs| ==> all[i] == bs[i];
    if PairwiseApart(all) {
      forall a | a in bs
        ensures Apart(a, b)
      {
        var i :| 0 <= i < |bs| && bs[i] == a;
        assert Apart(all[i], all[|bs|]);
      }
    }
  }

  lemma LastIntervalApart(stream: seq<Height>)
    requires stream != []
    ensures PairwiseApart(Intervals(stream)) <==>
            PairwiseApart(Intervals(stream[..|stream| - 1])) && !WrapsIntoBackfill(stream, |stream| - 1)
  {
    hide Last, Intervals, PairwiseApart, Apart;
    var k := |stream| - 1;
    var last, was := Last(stream[..k]), Intervals(stream[..k]);
    IntervalsSnoc(stream);
    IntervalsBelowLast(stream[..k]);
    if OpensGap(last, stream[k]) {
      ApartSnoc(was, GapBelow(last, stream[k]));
      forall b | b in was
        ensures Apart(b, GapBelow(last, stream[k])) <==> !(last == LIMIT - 1 && b.from < stream[k])
      {
        ApartFromGap(last, stream[k], b);
      }
    }
  }

  /** The backfill intervals are pairwise disjoint exactly when no height that follows height 2^64 - 1 is
      above the start of an earlier backfill. */
  lemma {:induction false} BackfillsDisjoint(stream: seq<Height>)
    ensures PairwiseApart(Intervals(stream)) <==> forall n :: 0 <= n < |stream| ==> !WrapsIntoBackfill(stream, n)
  {
    if stream == [] {
    } else {
      hide Last, Intervals, WrapsIntoBackfill, Apart;
      var k := |stream| - 1;
      var init := stream[..k];
      BackfillsDisjoint(init);
      LastIntervalApart(stream);
      forall n | 0 <= n < k
        ensures WrapsIntoBackfill(stream, n) <==> WrapsIntoBackfill(init, n)
      {
        SamePrefix(stream, n);
      }
    }
  }

  /** Without a wrap the backfill intervals come in ascending order. */
  lemma {:induction false} BackfillsAscend(stream: seq<Height>)
    requires forall n :: 0 <= n < |stream| ==> !WrapsAt(stream, n)
    ensures forall i, j :: 0 <= i < j < |Intervals(stream)| ==> Intervals(stream)[i].to < Intervals(stream)[j].from
  {
    if stream == [] {
    } else {
      var init := stream[..|stream| - 1];
      forall n | 0 <= n < |init|
        ensures !WrapsAt(init, n)
      {
        assert init[..n] == stream[..n];
        assert !WrapsAt(stream, n);
      }
      BackfillsAscend(init);
      BackfillsStartAbove(stream);
      assert StartsAbove(stream, |stream| - 1);
    }
  }

  /** Height 2^64 - 1 followed by two later headers backfills height 0 twice. */
  lemma WrapOverlap()
    ensures Intervals([LIMIT - 1, 1, 1]) == [Interval(0, 0), Interval(0, 0)]
  {
    var s: seq<Height> := [LIMIT - 1, 1, 1];
    assert s[..2] == [LIMIT - 1, 1] && s[..2][..1] == [LIMIT - 1] && s[..2][..1][..0] == [];
    assert Last(s[..2][..1]) == LIMIT - 1;
    assert Intervals(s[..2][..1]) == [];
    assert Last(s[..2]) == LIMIT - 1;
    assert Intervals(s[..2]) == [Interval(0, 0)];
  }
}
