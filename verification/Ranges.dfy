/** Sorted lists of height ranges as values: what the list of one blob type stands for,
    why that list is unique, and what its summed total means in uint64 arithmetic. */
module Ranges {
  import opened Decimal
  import opened Uint64

  datatype Range = Range(start: nat, end: nat)

  ghost predicate InBounds(r: Range) { r.start <= r.end < LIMIT }

  /** Sorted, non-empty, disjoint and never adjacent. */
  ghost predicate WellFormed(rs: seq<Range>)
  {
    && (forall i :: 0 <= i < |rs| ==> InBounds(rs[i]))
    && (forall i, j :: 0 <= i < j < |rs| ==> rs[i].end + 1 < rs[j].start)
  }

  ghost predicate Between(lo: int, h: int, hi: int) { lo <= h <= hi }

  ghost predicate Within(h: int, r: Range) { Between(r.start, h, r.end) }

  ghost predicate Covers(rs: seq<Range>, h: int)
  {
    exists i :: 0 <= i < |rs| && Within(h, rs[i])
  }

  /** The set of heights a list stands for. */
  ghost function Heights(rs: seq<Range>): (hs: set<int>)
    ensures forall h :: h in hs <==> Covers(rs, h)
  {
    set i, h | 0 <= i < |rs| && rs[i].start <= h <= rs[i].end && Within(h, rs[i]) :: h
  }

  lemma CoversConcat(a: seq<Range>, b: seq<Range>, h: int)
    ensures Covers(a + b, h) <==> Covers(a, h) || Covers(b, h)
  {
    if Covers(a, h) {
      var i :| 0 <= i < |a| && Within(h, a[i]);
      assert (a + b)[i] == a[i];
    }
    if Covers(b, h) {
      var i :| 0 <= i < |b| && Within(h, b[i]);
      assert (a + b)[|a| + i] == b[i];
    }
  }

  /** `after` is `before` with h added, in the list's own normal form. */
  ghost predicate Inserted(before: seq<Range>, h: int, after: seq<Range>)
  {
    WellFormed(after) && Heights(after) == Heights(before) + {h}
  }

  /** `after` is `before` with h taken away, in the list's own normal form. */
  ghost predicate Removed(before: seq<Range>, h: int, after: seq<Range>)
  {
    WellFormed(after) && Heights(after) == Heights(before) - {h}
  }

  /** Replacing rs[i..j] by mid, the shape of every branch of both operations. */
  ghost function Splice(rs: seq<Range>, i: int, j: int, mid: seq<Range>): seq<Range>
    requires 0 <= i <= j <= |rs|
  {
    rs[..i] + mid + rs[j..]
  }

  /** mid can stand between rs[..i] and rs[j..]: neither neighbour touches it. */
  ghost predicate Fits(rs: seq<Range>, i: int, j: int, mid: seq<Range>)
    requires 0 <= i <= j <= |rs|
  {
    && (i > 0 && mid != [] ==> rs[i - 1].end + 1 < mid[0].start)
    && (j < |rs| && mid != [] ==> mid[|mid| - 1].end + 1 < rs[j].start)
  }

  /** A splice that fits is well formed. */
  lemma SpliceWellFormed(rs: seq<Range>, i: int, j: int, mid: seq<Range>)
    requires 0 <= i <= j <= |rs| && WellFormed(rs) && WellFormed(mid) && Fits(rs, i, j, mid)
    ensures WellFormed(Splice(rs, i, j, mid))
  {
    var after := Splice(rs, i, j, mid);
    forall p, q | 0 <= p < q < |after|
      ensures after[p].end + 1 < after[q].start
    {
      if p < i <= q < i + |mid| {
        assert rs[p].end <= rs[i - 1].end;
        assert mid[0].start <= mid[q - i].start;
      } else if i <= p < i + |mid| <= q {
        assert mid[p - i].end <= mid[|mid| - 1].end;
        assert rs[j].start <= rs[j + (q - i - |mid|)].start;
      }
    }
  }

  /** No height lies in two of the three parts of a well-formed list. */
  lemma PartsDisjoint(rs: seq<Range>, i: int, j: int, h: int)
    requires 0 <= i <= j <= |rs| && WellFormed(rs)
    ensures !(Covers(rs[i..j], h) && (Covers(rs[..i], h) || Covers(rs[j..], h)))
  {
    assert forall p :: 0 <= p < |rs[i..j]| ==> rs[i..j][p] == rs[i + p];
    assert forall p :: 0 <= p < |rs[..i]| ==> rs[..i][p] == rs[p];
    assert forall p :: 0 <= p < |rs[j..]| ==> rs[j..][p] == rs[j + p];
  }

  /** A splice exchanges exactly the heights of the two middle parts. */
  lemma SpliceCovers(rs: seq<Range>, i: int, j: int, mid: seq<Range>, h: int)
    requires 0 <= i <= j <= |rs| && WellFormed(rs)
    ensures Covers(Splice(rs, i, j, mid), h) <==>
            Covers(mid, h) || (Covers(rs, h) && !Covers(rs[i..j], h))
  {
    CoversConcat(rs[..i] + mid, rs[j..], h);
    CoversConcat(rs[..i], mid, h);
    CoversConcat(rs[..i], rs[i..], h);
    CoversConcat(rs[i..j], rs[j..], h);
    assert rs == rs[..i] + rs[i..] && rs[i..] == rs[i..j] + rs[j..];
    PartsDisjoint(rs, i, j, h);
  }

  lemma FirstRange(a: seq<Range>, b: seq<Range>)
    requires WellFormed(a) && WellFormed(b) && a != [] && b != []
    requires Heights(a) == Heights(b)
    ensures a[0].start <= b[0].start
    ensures a[0].start == b[0].start ==> a[0].end <= b[0].end
  {
    assert b[0].start in Heights(b);
    assert forall h :: Within(h, a[0]) ==> h in Heights(a);
    assert b[0].end + 1 !in Heights(b);
  }

  lemma TailHeights(rs: seq<Range>, h: int)
    requires WellFormed(rs) && rs != []
    ensures h in Heights(rs[1..]) <==> h in Heights(rs) && h > rs[0].end
  {
    CoversConcat([rs[0]], rs[1..], h);
    assert rs == [rs[0]] + rs[1..];
    if Covers(rs[1..], h) {
      var i :| 0 <= i < |rs[1..]| && Within(h, rs[1..][i]);
      assert rs[1..][i] == rs[i + 1];
    }
    if Covers([rs[0]], h) {
      var i :| 0 <= i < 1 && Within(h, [rs[0]][i]);
    }
  }

  /** Canonical form: a set of heights has one well-formed list. */
  lemma {:induction false} CanonicalForm(a: seq<Range>, b: seq<Range>)
    requires WellFormed(a) && WellFormed(b)
    requires Heights(a) == Heights(b)
    ensures a == b
    decreases |a|
  {
    assert b != [] ==> Covers(b, b[0].start);
    assert a != [] ==> Covers(a, a[0].start);
    if a == [] {
    } else {
      FirstRange(a, b);
      FirstRange(b, a);
      forall h
        ensures h in Heights(a[1..]) <==> h in Heights(b[1..])
      {
        TailHeights(a, h);
        TailHeights(b, h);
      }
      CanonicalForm(a[1..], b[1..]);
      assert a == [a[0]] + a[1..] && b == [b[0]] + b[1..];
    }
  }

  /** Recording a height twice gives the identical list. */
  lemma InsertIdempotent(rs: seq<Range>, h: int, once: seq<Range>, twice: seq<Range>)
    requires Inserted(rs, h, once) && Inserted(once, h, twice)
    ensures once == twice
  {
    CanonicalForm(once, twice);
  }

  /** Recording and then removing an untracked height gives back the identical list. */
  lemma InsertThenRemove(rs: seq<Range>, h: int, with: seq<Range>, back: seq<Range>)
    requires WellFormed(rs) && !Covers(rs, h)
    requires Inserted(rs, h, with) && Removed(with, h, back)
    ensures back == rs
  {
    CanonicalForm(back, rs);
  }

  /** Recording one height and removing another gives the same list in either order. */
  lemma UpdatesCommute(rs: seq<Range>, h: int, k: int,
                       hFirst: seq<Range>, thenK: seq<Range>, kFirst: seq<Range>, thenH: seq<Range>)
    requires h != k
    requires Inserted(rs, h, hFirst) && Removed(hFirst, k, thenK)
    requires Removed(rs, k, kFirst) && Inserted(kFirst, h, thenH)
    ensures thenK == thenH
  {
    assert Heights(thenK) == Heights(thenH);
    CanonicalForm(thenK, thenH);
  }

  lemma BoundsAt(rs: seq<Range>, i: int)
    requires WellFormed(rs) && 0 <= i < |rs|
    ensures InBounds(rs[i])
  {
  }

  /** Shrinking a range and inserting one behind it is one splice. */
  lemma UpdateThenSplice(rs: seq<Range>, i: int, a: Range, b: Range)
    requires 0 <= i < |rs|
    ensures Splice(rs[i := a], i + 1, i + 1, [b]) == Splice(rs, i, i + 1, [a, b])
  {
  }

  /** Growing a range and erasing the one behind it is one splice. */
  lemma UpdateThenErase(rs: seq<Range>, i: int, a: Range)
    requires 0 < i < |rs|
    ensures rs[i - 1 := a][..i] + rs[i - 1 := a][i + 1..] == Splice(rs, i - 1, i + 1, [a])
  {
  }

  // ----- the branches of the two operations, as splices

  lemma PartCovers(rs: seq<Range>, i: int, j: int, h: int)
    requires 0 <= i <= j <= |rs|
    ensures Covers(rs[i..j], h) ==> Covers(rs, h)
  {
    CoversConcat(rs[..i], rs[i..], h);
    CoversConcat(rs[i..j], rs[j..], h);
    assert rs == rs[..i] + rs[i..] && rs[i..] == rs[i..j] + rs[j..];
  }

  /** A splice whose middle gains exactly h records h. */
  lemma ExchangeInserts(rs: seq<Range>, i: int, j: int, mid: seq<Range>, h: int)
    requires 0 <= i <= j <= |rs| && WellFormed(rs) && WellFormed(mid) && Fits(rs, i, j, mid)
    requires forall k :: Covers(mid, k) <==> Covers(rs[i..j], k) || k == h
    ensures Inserted(rs, h, Splice(rs, i, j, mid))
  {
    SpliceWellFormed(rs, i, j, mid);
    forall k
      ensures k in Heights(Splice(rs, i, j, mid)) <==> k in Heights(rs) + {h}
    {
      SpliceCovers(rs, i, j, mid, k);
      PartCovers(rs, i, j, k);
    }
  }

  /** A splice whose middle loses exactly h removes h. */
  lemma ExchangeRemoves(rs: seq<Range>, i: int, j: int, mid: seq<Range>, h: int)
    requires 0 <= i <= j <= |rs| && WellFormed(rs) && WellFormed(mid) && Fits(rs, i, j, mid)
    requires Covers(rs[i..j], h)
    requires forall k :: Covers(mid, k) <==> Covers(rs[i..j], k) && k != h
    ensures Removed(rs, h, Splice(rs, i, j, mid))
  {
    SpliceWellFormed(rs, i, j, mid);
    forall k
      ensures k in Heights(Splice(rs, i, j, mid)) <==> k in Heights(rs) - {h}
    {
      SpliceCovers(rs, i, j, mid, k);
      PartCovers(rs, i, j, k);
    }
  }

  lemma CoversOne(rs: seq<Range>, h: int)
    requires |rs| == 1
    ensures Covers(rs, h) <==> Within(h, rs[0])
  {
  }

  lemma CoversTwo(rs: seq<Range>, h: int)
    requires |rs| == 2
    ensures Covers(rs, h) <==> Within(h, rs[0]) || Within(h, rs[1])
  {
    assert Within(h, rs[0]) || Within(h, rs[1]) ==> Covers(rs, h);
  }

  lemma InsertCovered(rs: seq<Range>, idx: int, h: int)
    requires WellFormed(rs) && 0 <= idx < |rs| && Within(h, rs[idx])
    ensures Inserted(rs, h, rs)
  {
    assert Heights(rs) == Heights(rs) + {h};
  }

  /** h continues the range before position idx. */
  ghost predicate MeetsLeft(rs: seq<Range>, idx: int, h: int)
    requires 0 <= idx <= |rs|
  {
    idx > 0 && rs[idx - 1].end + 1 == h
  }

  /** h is just before the range at position idx. */
  ghost predicate MeetsRight(rs: seq<Range>, idx: int, h: int)
    requires 0 <= idx <= |rs|
  {
    idx < |rs| && rs[idx].start - 1 == h
  }

  ghost function From(rs: seq<Range>, idx: int, h: int): (i: int)
    requires 0 <= idx <= |rs|
    ensures 0 <= i <= idx
  {
    if MeetsLeft(rs, idx, h) then idx - 1 else idx
  }

  ghost function To(rs: seq<Range>, idx: int, h: int): (j: int)
    requires 0 <= idx <= |rs|
    ensures idx <= j <= |rs|
  {
    if MeetsRight(rs, idx, h) then idx + 1 else idx
  }

  /** The one range that takes in h together with the neighbours it meets. */
  ghost function Joined(rs: seq<Range>, idx: int, h: nat): Range
    requires 0 <= idx <= |rs|
  {
    Range(if MeetsLeft(rs, idx, h) then rs[idx - 1].start else h,
          if MeetsRight(rs, idx, h) then rs[idx].end else h)
  }

  /** All four ways of recording a height: merge both sides, extend left, extend right, new range. */
  lemma InsertAt(rs: seq<Range>, idx: int, h: nat)
    requires WellFormed(rs) && 0 <= idx <= |rs| && h < LIMIT
    requires idx > 0 ==> rs[idx - 1].end < h
    requires idx < |rs| ==> h < rs[idx].start
    ensures WellFormed([Joined(rs, idx, h)])
    ensures Fits(rs, From(rs, idx, h), To(rs, idx, h), [Joined(rs, idx, h)])
    ensures Inserted(rs, h, Splice(rs, From(rs, idx, h), To(rs, idx, h), [Joined(rs, idx, h)]))
  {
    var i, j, mid := From(rs, idx, h), To(rs, idx, h), [Joined(rs, idx, h)];
    forall k
      ensures Covers(mid, k) <==> Covers(rs[i..j], k) || k == h
    {
      CoversOne(mid, k);
      if j - i == 1 { CoversOne(rs[i..j], k); }
      if j - i == 2 { CoversTwo(rs[i..j], k); }
    }
    ExchangeInserts(rs, i, j, mid, h);
  }

  lemma RemoveAbsent(rs: seq<Range>, idx: int, h: int)
    requires WellFormed(rs) && 0 <= idx <= |rs|
    requires idx > 0 ==> rs[idx - 1].end < h
    requires idx < |rs| ==> h < rs[idx].start
    ensures Removed(rs, h, rs)
  {
    assert forall i :: 0 <= i < idx ==> rs[i].end <= rs[idx - 1].end;
    assert forall i :: idx <= i < |rs| ==> rs[idx].start <= rs[i].start;
    assert Heights(rs) == Heights(rs) - {h};
  }

  /** The middle left behind when h is taken out of one range. */
  ghost function Without(r: Range, h: int): seq<Range>
    requires Within(h, r)
  {
    (if r.start < h then [Range(r.start, h - 1)] else []) + (if h < r.end then [Range(h + 1, r.end)] else [])
  }

  /** All four ways of taking a height out of the range that holds it. */
  lemma RemoveFrom(rs: seq<Range>, idx: int, h: int)
    requires WellFormed(rs) && 0 <= idx < |rs| && Within(h, rs[idx])
    ensures WellFormed(Without(rs[idx], h)) && Fits(rs, idx, idx + 1, Without(rs[idx], h))
    ensures Removed(rs, h, Splice(rs, idx, idx + 1, Without(rs[idx], h)))
  {
    var r, mid := rs[idx], Without(rs[idx], h);
    forall k
      ensures Covers(rs[idx..idx + 1], k) <==> Within(k, r)
      ensures Covers(mid, k) <==> Within(k, r) && k != h
    {
      CoversOne(rs[idx..idx + 1], k);
      if |mid| == 1 { CoversOne(mid, k); }
      if |mid| == 2 { CoversTwo(mid, k); }
    }
    ExchangeRemoves(rs, idx, idx + 1, mid, h);
  }

  // ----- the summed total

  /** The exact number of heights, range by range. */
  ghost function Count(rs: seq<Range>): int
  {
    if rs == [] then 0 else Count(rs[..|rs| - 1]) + (rs[|rs| - 1].end - rs[|rs| - 1].start + 1)
  }

  lemma CountNone(rs: seq<Range>)
    ensures Count(rs[..0]) == 0
  {
  }

  lemma CountStep(rs: seq<Range>, i: nat)
    requires i < |rs|
    ensures Count(rs[..i + 1]) == Count(rs[..i]) + (rs[i].end - rs[i].start + 1)
  {
    assert rs[..i + 1][..i] == rs[..i];
  }

  ghost function Span(lo: int, hi: int): (hs: set<int>) {
    set h | lo <= h <= hi && Between(lo, h, hi)
  }

  lemma {:induction false} SpanSize(lo: int, hi: int)
    requires lo <= hi + 1
    ensures |Span(lo, hi)| == hi - lo + 1
    decreases hi - lo + 1
  {
    if lo == hi + 1 {
      assert Span(lo, hi) == {};
    } else {
      SpanSize(lo, hi - 1);
      forall h
        ensures h in Span(lo, hi) <==> h in Span(lo, hi - 1) + {hi}
      {
        assert Between(lo, h, hi) <==> Between(lo, h, hi - 1) || h == hi;
      }
      assert Span(lo, hi) == Span(lo, hi - 1) + {hi};
      assert hi !in Span(lo, hi - 1);
    }
  }

  lemma HeightsSnoc(init: seq<Range>, last: Range)
    requires WellFormed(init + [last])
    ensures |Heights(init + [last])| == |Heights(init)| + |Span(last.start, last.end)|
  {
    var rs, span := init + [last], Span(last.start, last.end);
    forall h
      ensures h in Heights(rs) <==> h in Heights(init) + span
    {
      CoversConcat(init, [last], h);
      assert Covers([last], h) <==> h in span by { assert [last][0] == last; }
    }
    assert Heights(rs) == Heights(init) + span;
    assert Heights(init) * span == {} by {
      assert forall i :: 0 <= i < |init| ==> init[i] == rs[i];
      assert last == rs[|init|];
    }
  }

  lemma {:induction false} CountIsCardinality(rs: seq<Range>)
    requires WellFormed(rs)
    ensures Count(rs) == |Heights(rs)|
  {
    if rs == [] {
      assert Heights(rs) == {};
    } else {
      hide Heights, Span;
      var init, last := rs[..|rs| - 1], rs[|rs| - 1];
      CountIsCardinality(init);
      assert rs == init + [last];
      HeightsSnoc(init, last);
      SpanSize(last.start, last.end);
    }
  }

  /** Every uint64 height is in hs. */
  ghost predicate Full(hs: set<int>) { forall h :: 0 <= h < LIMIT ==> h in hs }

  lemma WrapBelow(n: int)
    requires 0 <= n <= LIMIT
    ensures n % LIMIT == if n == LIMIT then 0 else n
  {
  }

  /** A set of numbers below n has n elements only when it holds all of them. */
  lemma BoundedSetSize(hs: set<int>, n: nat)
    requires forall h :: h in hs ==> 0 <= h < n
    ensures |hs| <= n
    ensures |hs| == n <==> forall h :: 0 <= h < n ==> h in hs
  {
    var all := Span(0, n - 1);
    SpanSize(0, n - 1);
    var rest := all - hs;
    assert all == hs + rest;
    assert |all| == |hs| + |rest|;
    if |rest| > 0 {
      var h :| h in rest;
    } else {
      assert all == hs;
    }
  }

  /** The uint64 sum the index computes is the number of missing heights,
      except when every uint64 height is missing; then it wraps to zero. */
  lemma WrappedTotalExact(rs: seq<Range>)
    requires WellFormed(rs)
    ensures Count(rs) % LIMIT == |Heights(rs)| <==> !Full(Heights(rs))
    ensures Full(Heights(rs)) ==> Count(rs) % LIMIT == 0
  {
    CountIsCardinality(rs);
    BoundedSetSize(Heights(rs), LIMIT);
    WrapBelow(|Heights(rs)|);
  }

  // ----- range ids

  /** The Prometheus label of a range, "start-end". */
  function RangeId(r: Range): string
  {
    Dec(r.start) + ['-'] + Dec(r.end)
  }

  /** id reads "start-end": two decimal numbers without leading zeros around a '-'. */
  ghost predicate Reads(id: string, start: int, end: int)
  {
    exists a, b :: id == a + ['-'] + b && Canonical(a) && Canonical(b) && Value(a) == start && Value(b) == end
  }

  /** The id of a range reads its start and its end, and no other string does. */
  lemma RangeIdReads(id: string, r: Range)
    ensures Reads(id, r.start, r.end) <==> id == RangeId(r)
  {
    DecRoundTrip(r.start);
    DecRoundTrip(r.end);
    if Reads(id, r.start, r.end) {
      var a, b :| id == a + ['-'] + b && Canonical(a) && Canonical(b) && Value(a) == r.start && Value(b) == r.end;
      DecOfValue(a);
      DecOfValue(b);
    }
  }

  lemma ReadsOnly(r: Range)
    ensures forall id :: Reads(id, r.start, r.end) <==> id == RangeId(r)
  {
    forall id
      ensures Reads(id, r.start, r.end) <==> id == RangeId(r)
    {
      RangeIdReads(id, r);
    }
  }

  lemma RangeIdInjective(r: Range, q: Range)
    requires RangeId(r) == RangeId(q)
    ensures r == q
  {
    SplitUnique(Dec(r.start), Dec(r.end), Dec(q.start), Dec(q.end), '-');
    DecInjective(r.start, q.start);
    DecInjective(r.end, q.end);
  }

  ghost function Elements(rs: seq<Range>): set<Range> { set r | r in rs }

  lemma MiddleApart(rs: seq<Range>, i: int, j: int, r: Range)
    requires 0 <= i <= j <= |rs| && WellFormed(rs)
    ensures !(r in rs[i..j] && (r in rs[..i] || r in rs[j..]))
  {
    assert forall p :: 0 <= p < |rs[i..j]| ==> rs[i..j][p] == rs[i + p];
    assert forall p :: 0 <= p < |rs[..i]| ==> rs[..i][p] == rs[p];
    assert forall p :: 0 <= p < |rs[j..]| ==> rs[j..][p] == rs[j + p];
  }

  /** A splice of a well-formed list drops and adds exactly the two middle parts. */
  lemma SpliceElements(rs: seq<Range>, i: int, j: int, mid: seq<Range>)
    requires 0 <= i <= j <= |rs| && WellFormed(rs)
    ensures Elements(Splice(rs, i, j, mid)) == Elements(rs) - Elements(rs[i..j]) + Elements(mid)
  {
    forall r
      ensures r in Splice(rs, i, j, mid) <==> r in mid || (r in rs && r !in rs[i..j])
    {
      assert rs == rs[..i] + rs[i..j] + rs[j..];
      MiddleApart(rs, i, j, r);
    }
  }
}
