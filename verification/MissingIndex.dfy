/** The missing-range index of pkg/metrics/metrics.go: range objects on the heap, one sorted
    slice of them per blob type, two gauges keyed by the printed range id and a total gauge.
    One chain id is fixed; gauge values are kept as exact integers. Heights are of the newtype
    uint64, so verification includes that no + 1 or - 1 at a range boundary ever wraps. */
module MissingIndex {
  import opened Ranges
  import opened Slices
  import opened Uint64

  datatype Label = Label(blobType: string, rangeId: string)

  /** The two gauge vectors that publish the ranges. */
  datatype Gauges = Gauges(starts: map<Label, uint64>, ends: map<Label, uint64>) {

    ghost function Set(t: string, r: Range): Gauges
      requires InBounds(r)
    {
      Gauges(starts[Label(t, RangeId(r)) := r.start as uint64], ends[Label(t, RangeId(r)) := r.end as uint64])
    }

    ghost function Drop(t: string, r: Range): Gauges
    {
      Gauges(starts - {Label(t, RangeId(r))}, ends - {Label(t, RangeId(r))})
    }

    ghost predicate Shows(t: string, r: Range)
    {
      var l := Label(t, RangeId(r));
      l in starts && starts[l] as int == r.start && l in ends && ends[l] as int == r.end
    }

    /** For blob type t, exactly the ranges of live are published. */
    ghost predicate Mirror(t: string, live: set<Range>)
    {
      && (forall r :: r in live ==> Shows(t, r))
      && (forall id :: Label(t, id) in starts || Label(t, id) in ends ==>
            exists r :: r in live && id == RangeId(r))
    }
  }

  ghost predicate SameAt(g: Gauges, g': Gauges, l: Label)
  {
    && (l in g'.starts <==> l in g.starts) && (l in g.starts ==> g'.starts[l] == g.starts[l])
    && (l in g'.ends <==> l in g.ends) && (l in g.ends ==> g'.ends[l] == g.ends[l])
  }

  /** Under the label that reads "start-end" the gauges now show that start and end; nothing else changed. */
  ghost predicate Sets(g: Gauges, g': Gauges, t: string, start: uint64, end: uint64)
  {
    forall l: Label ::
      if l.blobType == t && Reads(l.rangeId, start as int, end as int)
      then l in g'.starts && g'.starts[l] == start && l in g'.ends && g'.ends[l] == end
      else SameAt(g, g', l)
  }

  /** The label that reads "start-end" is gone from both gauges; nothing else changed. */
  ghost predicate Drops(g: Gauges, g': Gauges, t: string, start: uint64, end: uint64)
  {
    forall l: Label ::
      if l.blobType == t && Reads(l.rangeId, start as int, end as int) then l !in g'.starts && l !in g'.ends
      else SameAt(g, g', l)
  }

  /** Deleting a range's label never hits another range: ids are injective. */
  lemma DropMirrors(g: Gauges, t: string, live: set<Range>, r: Range)
    requires g.Mirror(t, live)
    ensures g.Drop(t, r).Mirror(t, live - {r})
  {
    forall q | q in live - {r}
      ensures g.Drop(t, r).Shows(t, q)
    {
      assert g.Shows(t, q);
      if RangeId(q) == RangeId(r) { RangeIdInjective(q, r); }
    }
    forall id | Label(t, id) in g.Drop(t, r).starts || Label(t, id) in g.Drop(t, r).ends
      ensures exists q :: q in live - {r} && id == RangeId(q)
    {
      var q :| q in live && id == RangeId(q);
      assert q in live - {r};
    }
  }

  lemma SetMirrors(g: Gauges, t: string, live: set<Range>, r: Range)
    requires g.Mirror(t, live) && InBounds(r)
    ensures g.Set(t, r).Mirror(t, live + {r})
  {
    forall q | q in live + {r}
      ensures g.Set(t, r).Shows(t, q)
    {
      if q in live { assert g.Shows(t, q); }
      if RangeId(q) == RangeId(r) { RangeIdInjective(q, r); }
    }
    forall id | Label(t, id) in g.Set(t, r).starts || Label(t, id) in g.Set(t, r).ends
      ensures exists q :: q in live + {r} && id == RangeId(q)
    {
      if id == RangeId(r) {
        assert r in live + {r};
      } else {
        var q :| q in live && id == RangeId(q);
        assert q in live + {r};
      }
    }
  }

  /** Labels of another blob type are not touched. */
  lemma OtherTypeMirrors(g: Gauges, t: string, r: Range, u: string, live: set<Range>)
    requires u != t && g.Mirror(u, live) && InBounds(r)
    ensures g.Set(t, r).Mirror(u, live) && g.Drop(t, r).Mirror(u, live)
  {
    assert forall q :: q in live ==> g.Shows(u, q);
  }

  ghost function SetAll(g: Gauges, t: string, rs: seq<Range>): Gauges
    requires forall i :: 0 <= i < |rs| ==> InBounds(rs[i])
  {
    if rs == [] then g else SetAll(g, t, rs[..|rs| - 1]).Set(t, rs[|rs| - 1])
  }

  ghost function DropAll(g: Gauges, t: string, rs: seq<Range>): Gauges
  {
    if rs == [] then g else DropAll(g, t, rs[..|rs| - 1]).Drop(t, rs[|rs| - 1])
  }

  lemma {:induction false} DropAllMirrors(g: Gauges, t: string, live: set<Range>, rs: seq<Range>)
    requires g.Mirror(t, live)
    ensures DropAll(g, t, rs).Mirror(t, live - Elements(rs))
  {
    if rs == [] {
      assert live - Elements(rs) == live;
    } else {
      var init, last := rs[..|rs| - 1], rs[|rs| - 1];
      DropAllMirrors(g, t, live, init);
      DropMirrors(DropAll(g, t, init), t, live - Elements(init), last);
      assert rs == init + [last];
      assert live - Elements(rs) == live - Elements(init) - {last};
    }
  }

  lemma {:induction false} SetAllMirrors(g: Gauges, t: string, live: set<Range>, rs: seq<Range>)
    requires g.Mirror(t, live) && forall i :: 0 <= i < |rs| ==> InBounds(rs[i])
    ensures SetAll(g, t, rs).Mirror(t, live + Elements(rs))
  {
    if rs == [] {
      assert live + Elements(rs) == live;
    } else {
      var init, last := rs[..|rs| - 1], rs[|rs| - 1];
      SetAllMirrors(g, t, live, init);
      SetMirrors(SetAll(g, t, init), t, live + Elements(init), last);
      assert rs == init + [last];
      assert live + Elements(rs) == live + Elements(init) + {last};
    }
  }

  lemma {:induction false} OtherTypeUntouched(g: Gauges, t: string, gone: seq<Range>, come: seq<Range>,
                                              u: string, live: set<Range>)
    requires u != t && g.Mirror(u, live)
    requires forall i :: 0 <= i < |gone| ==> InBounds(gone[i])
    requires forall i :: 0 <= i < |come| ==> InBounds(come[i])
    ensures SetAll(DropAll(g, t, gone), t, come).Mirror(u, live)
    decreases |come|, |gone|
  {
    if come == [] && gone == [] {
    } else if come == [] {
      var init, last := gone[..|gone| - 1], gone[|gone| - 1];
      OtherTypeUntouched(g, t, init, [], u, live);
      OtherTypeMirrors(DropAll(g, t, init), t, last, u, live);
    } else {
      var init, last := come[..|come| - 1], come[|come| - 1];
      OtherTypeUntouched(g, t, gone, init, u, live);
      OtherTypeMirrors(SetAll(DropAll(g, t, gone), t, init), t, last, u, live);
    }
  }

  lemma SetOne(g: Gauges, t: string, mid: seq<Range>)
    requires |mid| == 1 && InBounds(mid[0])
    ensures SetAll(g, t, mid) == g.Set(t, mid[0])
  {
    assert mid[..0] == [];
  }

  lemma SetTwo(g: Gauges, t: string, mid: seq<Range>)
    requires |mid| == 2 && InBounds(mid[0]) && InBounds(mid[1])
    ensures SetAll(g, t, mid) == g.Set(t, mid[0]).Set(t, mid[1])
  {
    SetOne(g, t, mid[..1]);
  }

  /** The lists by blob type; a type never touched has none, which reads as the empty list. */
  type Views = map<string, seq<Range>>

  ghost function ListOf(vs: Views, t: string): seq<Range>
  {
    if t in vs then vs[t] else []
  }

  /** Every list is well formed and published label by label. */
  ghost predicate Sound(vs: Views, g: Gauges)
  {
    forall t :: WellFormed(ListOf(vs, t)) && g.Mirror(t, Elements(ListOf(vs, t)))
  }

  lemma SoundWellFormed(vs: Views, g: Gauges, t: string)
    requires Sound(vs, g)
    ensures WellFormed(ListOf(vs, t)) && g.Mirror(t, Elements(ListOf(vs, t)))
  {
  }

  lemma ListInBounds(vs: Views, g: Gauges, t: string, i: int, j: int, mid: seq<Range>)
    requires Sound(vs, g) && 0 <= i <= j <= |ListOf(vs, t)| && WellFormed(mid)
    ensures forall k :: 0 <= k < j - i ==> InBounds(ListOf(vs, t)[i..j][k])
    ensures forall k :: 0 <= k < |mid| ==> InBounds(mid[k])
  {
    SoundWellFormed(vs, g, t);
  }

  lemma ExchangeMirrors(g: Gauges, t: string, rs: seq<Range>, i: int, j: int, mid: seq<Range>)
    requires 0 <= i <= j <= |rs| && WellFormed(rs) && WellFormed(mid)
    requires g.Mirror(t, Elements(rs))
    ensures SetAll(DropAll(g, t, rs[i..j]), t, mid).Mirror(t, Elements(Splice(rs, i, j, mid)))
  {
    SpliceElements(rs, i, j, mid);
    DropAllMirrors(g, t, Elements(rs), rs[i..j]);
    SetAllMirrors(DropAll(g, t, rs[i..j]), t, Elements(rs) - Elements(rs[i..j]), mid);
  }

  /** The gauges as a scrape shows them: for every blob type the labels are the strings "start-end" of the
      listed ranges, in both gauges, with that start and that end as values. */
  ghost predicate LabelsExact(vs: Views, g: Gauges)
  {
    && g.starts.Keys == g.ends.Keys
    && (forall l :: l in g.starts ==> Reads(l.rangeId, g.starts[l] as int, g.ends[l] as int)
                                      && Range(g.starts[l] as int, g.ends[l] as int) in ListOf(vs, l.blobType))
    && (forall t, id, r :: r in ListOf(vs, t) && Reads(id, r.start, r.end) ==> Label(t, id) in g.starts)
  }

  lemma LabelSound(vs: Views, g: Gauges, l: Label)
    requires Sound(vs, g)
    ensures l in g.starts <==> l in g.ends
    ensures l in g.starts ==> Reads(l.rangeId, g.starts[l] as int, g.ends[l] as int)
                              && Range(g.starts[l] as int, g.ends[l] as int) in ListOf(vs, l.blobType)
  {
    hide RangeId, Reads, WellFormed;
    var rs := ListOf(vs, l.blobType);
    SoundWellFormed(vs, g, l.blobType);
    assert l == Label(l.blobType, l.rangeId);
    if l in g.starts || l in g.ends {
      var r :| r in Elements(rs) && l.rangeId == RangeId(r);
      assert g.Shows(l.blobType, r);
      RangeIdReads(l.rangeId, r);
    }
  }

  lemma SoundLabels(vs: Views, g: Gauges)
    requires Sound(vs, g)
    ensures LabelsExact(vs, g)
  {
    hide RangeId, Reads, WellFormed;
    forall l: Label
      ensures l in g.starts <==> l in g.ends
      ensures l in g.starts ==> Reads(l.rangeId, g.starts[l] as int, g.ends[l] as int)
                                && Range(g.starts[l] as int, g.ends[l] as int) in ListOf(vs, l.blobType)
    {
      LabelSound(vs, g, l);
    }
    forall t, id, r | r in ListOf(vs, t) && Reads(id, r.start, r.end)
      ensures Label(t, id) in g.starts
    {
      SoundWellFormed(vs, g, t);
      RangeIdReads(id, r);
      assert r in Elements(ListOf(vs, t)) && g.Shows(t, r);
    }
  }

  /** Exchanging part of one list, with its labels, keeps all lists sound. */
  lemma ExchangeSound(vs: Views, g: Gauges, t: string, i: int, j: int, mid: seq<Range>)
    requires Sound(vs, g) && 0 <= i <= j <= |ListOf(vs, t)|
    requires WellFormed(mid) && Fits(ListOf(vs, t), i, j, mid)
    ensures Sound(vs[t := Splice(ListOf(vs, t), i, j, mid)], SetAll(DropAll(g, t, ListOf(vs, t)[i..j]), t, mid))
  {
    hide Gauges.Mirror, WellFormed, Fits, SetAll, DropAll, Splice, Elements;
    var rs := ListOf(vs, t);
    ListInBounds(vs, g, t, i, j, mid);
    SpliceWellFormed(rs, i, j, mid);
    ExchangeMirrors(g, t, rs, i, j, mid);
    var vs', g' := vs[t := Splice(rs, i, j, mid)], SetAll(DropAll(g, t, rs[i..j]), t, mid);
    forall u
      ensures WellFormed(ListOf(vs', u)) && g'.Mirror(u, Elements(ListOf(vs', u)))
    {
      if u != t {
        OtherTypeUntouched(g, t, rs[i..j], mid, u, Elements(ListOf(vs, u)));
      }
    }
  }

  lemma DropTwo(g: Gauges, t: string, rs: seq<Range>, i: int)
    requires 0 < i < |rs|
    ensures DropAll(g, t, rs[i - 1..i + 1]) == g.Drop(t, rs[i - 1]).Drop(t, rs[i])
  {
    var gone := rs[i - 1..i + 1];
    assert gone == [rs[i - 1], rs[i]] && gone[..1] == [rs[i - 1]] && gone[..1][..0] == [];
    assert DropAll(g, t, gone[..1]) == DropAll(g, t, []).Drop(t, rs[i - 1]);
  }

  lemma DropOne(g: Gauges, t: string, rs: seq<Range>, i: int)
    requires 0 <= i < |rs|
    ensures DropAll(g, t, rs[i..i + 1]) == g.Drop(t, rs[i])
  {
    assert rs[i..i + 1][..0] == [];
  }

  lemma DropNone(g: Gauges, t: string, rs: seq<Range>, i: int)
    requires 0 <= i <= |rs|
    ensures DropAll(g, t, rs[i..i]) == g
  {
  }

  class BlockRange {
    var start: uint64
    var end: uint64

    constructor (start: uint64, end: uint64)
      ensures this.start == start && this.end == end
    {
      this.start, this.end := start, end;
    }

    function Snap(): Range
      reads this
    {
      Range(start as int, end as int)
    }
  }

  /** Each total gauge is the uint64 sum over its list; a type never touched has no gauge. */
  ghost predicate TotalsMatch(totals: map<string, uint64>, vs: Views)
  {
    forall t :: if t in totals then totals[t] as int == Count(ListOf(vs, t)) % LIMIT else ListOf(vs, t) == []
  }

  lemma TotalsFollow(vs: Views, totals: map<string, uint64>, vs': Views, totals': map<string, uint64>, t: string)
    requires TotalsMatch(totals, vs)
    requires totals'.Keys == totals.Keys + {t} && totals'[t] as int == Count(ListOf(vs', t)) % LIMIT
    requires forall u :: u != t ==> ListOf(vs', u) == ListOf(vs, u)
    requires forall u :: u != t && u in totals' ==> totals'[u] == totals[u]
    ensures TotalsMatch(totals', vs')
  {
    hide Count;
  }

  /** total + (end - start + 1) in uint64 arithmetic. */
  function WrappingAdd(total: uint64, start: uint64, end: uint64, ghost exact: int): (sum: uint64)
    requires start <= end && total as int == exact % LIMIT
    ensures sum as int == (exact + (end as int - start as int + 1)) % LIMIT
  {
    ((total as int + (end as int - start as int + 1)) % LIMIT) as uint64
  }

  /** The slice holds the range objects objs. */
  ghost predicate Stored(bs: Slice<BlockRange?>, objs: seq<BlockRange>)
    reads bs.buf
  {
    bs.Ok() && bs.len == |objs| && forall i :: 0 <= i < bs.len ==> bs.buf[bs.off + i] == objs[i]
  }

  lemma StoredIsElems(bs: Slice<BlockRange?>, objs: seq<BlockRange>)
    ensures Stored(bs, objs) <==> bs.Ok() && bs.Elems() == objs
  {
    if bs.Ok() && bs.Elems() == objs {
      assert forall i :: 0 <= i < bs.len ==> bs.Elems()[i] == objs[i];
    }
  }

  method EraseStored(bs: Slice<BlockRange?>, i: nat, ghost objs: seq<BlockRange>) returns (r: Slice<BlockRange?>)
    requires Stored(bs, objs) && i < |objs|
    modifies bs.buf
    ensures r.buf == bs.buf && Stored(r, objs[..i] + objs[i + 1..])
  {
    hide Stored, Slice.Elems;
    StoredIsElems(bs, objs);
    r := Slices.Erase(bs, i);
    StoredIsElems(r, objs[..i] + objs[i + 1..]);
  }

  method InsertStored(bs: Slice<BlockRange?>, i: nat, x: BlockRange, ghost objs: seq<BlockRange>)
    returns (r: Slice<BlockRange?>)
    requires Stored(bs, objs) && i <= |objs|
    modifies bs.buf
    ensures (r.buf == bs.buf && bs.Cap() > 0) || fresh(r.buf)
    ensures Stored(r, objs[..i] + [x] + objs[i..])
  {
    hide Stored, Slice.Elems;
    StoredIsElems(bs, objs);
    r := Slices.Insert(bs, i, x);
    StoredIsElems(r, objs[..i] + [x] + objs[i..]);
  }

  class Index {
    var ranges: map<string, Slice<BlockRange?>>
    var startGauge: map<Label, uint64>
    var endGauge: map<Label, uint64>
    var totalGauge: map<string, uint64>
    /** The range objects of each list, in order. */
    ghost var objects: map<string, seq<BlockRange>>
    /** What the lists hold, as values. */
    ghost var lists: Views
    /** The range objects in use, each with the one blob type whose list holds it. */
    ghost var owner: map<BlockRange, string>
    /** The backing arrays in use. */
    ghost var buffers: set<array<BlockRange?>>

    /** The range objects objs are those of type t and hold the values rs. */
    ghost predicate Row(t: string, objs: seq<BlockRange>, rs: seq<Range>)
      reads `owner, owner.Keys
    {
      && |objs| == |rs|
      && forall i :: 0 <= i < |objs| ==> objs[i] in owner && owner[objs[i]] == t && objs[i].Snap() == rs[i]
    }

    /** The range objects hold the listed values, and no object is shared between two lists. */
    ghost predicate Tied()
      reads `objects, `lists, `owner, owner.Keys
    {
      lists.Keys == objects.Keys && forall t :: t in objects ==> Row(t, objects[t], lists[t])
    }

    /** The slices hold those objects, and no backing array is shared between two slices. */
    ghost predicate Backed()
      reads `ranges, `objects, `buffers, buffers
    {
      && objects.Keys == ranges.Keys
      && (forall t :: t in ranges ==> ranges[t].buf in buffers && Stored(ranges[t], objects[t]))
      && (forall t, u :: t in ranges && u in ranges && t != u ==> ranges[t].buf != ranges[u].buf)
    }

    ghost function ObjectsOf(t: string): seq<BlockRange>
      reads `objects
    {
      if t in objects then objects[t] else []
    }

    /** bs is the slice of t, or an empty one when t has none. */
    ghost predicate Current(t: string, bs: Slice<BlockRange?>)
      reads `ranges, `objects, `buffers, bs.buf
    {
      && Stored(bs, ObjectsOf(t))
      && if t in ranges then bs == ranges[t] else bs.Cap() == 0 && bs.buf !in buffers
    }

    ghost function Published(): Gauges
      reads `startGauge, `endGauge
    {
      Gauges(startGauge, endGauge)
    }

    ghost function Footprint(): set<object>
      reads `owner, `buffers
    {
      owner.Keys + buffers
    }

    /** What holds whenever the lock is held, before the total is refreshed. */
    ghost predicate Coherent()
      reads `ranges, `objects, `lists, `startGauge, `endGauge, `owner, `buffers, Footprint()
    {
      Tied() && Backed() && Sound(lists, Published())
    }

    ghost predicate Valid()
      reads this, Footprint()
    {
      Coherent() && TotalsMatch(totalGauge, lists)
    }

    constructor ()
      ensures Valid() && Footprint() == {} && lists == map[]
    {
      ranges, startGauge, endGauge, totalGauge := map[], map[], map[], map[];
      objects, owner, lists, buffers := map[], map[], map[], {};
    }

    /** The slice of t holds range objects with the listed values. */
    lemma CurrentHolds(t: string, bs: Slice<BlockRange?>)
      requires Tied() && Current(t, bs)
      ensures bs.Ok() && bs.len == |ListOf(lists, t)|
      ensures forall i :: 0 <= i < bs.len ==>
                var b := bs.At(i); b != null && b.Snap() == ListOf(lists, t)[i]
    {
      hide Slice.Elems;
      assert t in objects ==> Row(t, objects[t], lists[t]);
      assert forall i :: 0 <= i < bs.len ==> bs.At(i) == ObjectsOf(t)[i];
    }

    /** The index of the range that holds h, or else of the first range after h. */
    method FindRangeIndex(t: string, bs: Slice<BlockRange?>, h: uint64) returns (idx: nat)
      requires Tied() && Current(t, bs) && WellFormed(ListOf(lists, t))
      ensures idx <= bs.len == |ListOf(lists, t)|
      ensures idx > 0 ==> ListOf(lists, t)[idx - 1].end < h as int
      ensures idx < bs.len ==> h as int <= ListOf(lists, t)[idx].end
    {
      hide Tied, Current, Slice.Elems;
      CurrentHolds(t, bs);
      ghost var rs := ListOf(lists, t);
      var lo, hi := 0, bs.len;
      while lo < hi
        invariant 0 <= lo <= hi <= bs.len
        invariant lo > 0 ==> rs[lo - 1].start <= h as int
        invariant hi < bs.len ==> (h as int) < rs[hi].start
      {
        var mid := (lo + hi) / 2;
        assert bs.At(mid).Snap() == rs[mid];
        if bs.At(mid).start > h { hi := mid; } else { lo := mid + 1; }
      }
      assert lo > 0 ==> bs.At(lo - 1).Snap() == rs[lo - 1];
      idx := if lo > 0 && h <= bs.At(lo - 1).end then lo - 1 else lo;
      assert idx + 1 == lo > 1 ==> rs[idx - 1].end < rs[idx].start;
    }

    method UpdateRange(t: string, r: BlockRange)
      requires InBounds(r.Snap())
      modifies this`startGauge, this`endGauge
      ensures Published() == old(Published()).Set(t, r.Snap())
      ensures Sets(old(Published()), Published(), t, r.start, r.end)
    {
      hide RangeId, Reads;
      ReadsOnly(r.Snap());
      var id := RangeId(r.Snap());
      startGauge := startGauge[Label(t, id) := r.start];
      endGauge := endGauge[Label(t, id) := r.end];
    }

    method DeleteRange(t: string, r: BlockRange)
      modifies this`startGauge, this`endGauge
      ensures Published() == old(Published()).Drop(t, r.Snap())
      ensures Drops(old(Published()), Published(), t, r.start, r.end)
    {
      hide RangeId, Reads;
      ReadsOnly(r.Snap());
      var id := RangeId(r.Snap());
      startGauge := startGauge - {Label(t, id)};
      endGauge := endGauge - {Label(t, id)};
    }

    /** r is object i in the list of t. */
    ghost predicate Sits(t: string, i: nat, r: BlockRange)
      reads `objects
    {
      t in objects && i < |objects[t]| && objects[t][i] == r
    }

    /** Element i of the slice of t. */
    method Pick(t: string, i: nat) returns (r: BlockRange)
      requires Tied() && Backed() && i < |ListOf(lists, t)|
      ensures Sits(t, i, r) && r in owner && r.Snap() == ListOf(lists, t)[i]
    {
      hide Slice.Elems;
      assert Row(t, objects[t], lists[t]) && Stored(ranges[t], objects[t]);
      assert ranges[t].At(i) == objects[t][i];
      r := ranges[t].At(i);
    }

    /** The slice of t; where t has none, an empty one. */
    method SliceOf(t: string) returns (bs: Slice<BlockRange?>)
      requires Tied() && Backed()
      ensures Current(t, bs) && bs.len == |ListOf(lists, t)|
      ensures (bs.buf in buffers || fresh(bs.buf)) && (t !in ranges ==> bs.len == 0)
    {
      if t in ranges {
        bs := ranges[t];
      } else {
        var none := new BlockRange?[0];
        bs := Slice(none, 0, 0);
      }
    }

    /** total += r.end - r.start + 1 for range i of t. */
    method AddSize(t: string, i: nat, total: uint64, ghost rs: seq<Range>) returns (sum: uint64)
      requires Tied() && Backed() && rs == ListOf(lists, t) && WellFormed(rs) && i < |rs|
      requires total as int == Count(rs[..i]) % LIMIT
      ensures sum as int == Count(rs[..i + 1]) % LIMIT
    {
      hide Tied, Backed, WellFormed, Count;
      CountStep(rs, i);
      BoundsAt(rs, i);
      var r := Pick(t, i);
      sum := WrappingAdd(total, r.start, r.end, Count(rs[..i]));
    }

    method RecordTotalMissingBlocks(t: string)
      requires Tied() && Backed() && WellFormed(ListOf(lists, t))
      modifies this`totalGauge
      ensures totalGauge.Keys == old(totalGauge).Keys + {t}
      ensures totalGauge[t] as int == Count(ListOf(lists, t)) % LIMIT
      ensures forall u :: u != t && u in totalGauge ==> totalGauge[u] == old(totalGauge)[u]
    {
      hide Tied, Backed, Current, WellFormed, Count;
      var bs := SliceOf(t);
      var total: uint64 := 0;
      ghost var rs := ListOf(lists, t);
      CountNone(rs);
      for i := 0 to bs.len
        invariant totalGauge == old(totalGauge)
        invariant total as int == Count(rs[..i]) % LIMIT
      {
        total := AddSize(t, i, total, rs);
      }
      assert rs[..bs.len] == rs;
      totalGauge := totalGauge[t := total];
    }

    /** Change the bounds of a listed range object and publish the result. */
    method Resize(t: string, i: nat, r: BlockRange, start: uint64, end: uint64)
      requires Tied() && Backed() && Sits(t, i, r) && t in lists && i < |lists[t]| && start <= end
      requires WellFormed(lists[t])
      modifies this`lists, this`startGauge, this`endGauge, r
      ensures Tied() && Backed()
      ensures lists == old(lists)[t := old(lists[t])[i := Range(start as int, end as int)]]
      ensures Published() == old(Published()).Set(t, Range(start as int, end as int))
    {
      hide RangeId, Sets, Drops, Backed;
      assert forall j :: 0 <= j < |lists[t]| && j != i ==> lists[t][j] != lists[t][i];
      r.start, r.end := start, end;
      lists := lists[t := lists[t][i := r.Snap()]];
      UpdateRange(t, r);
    }

    /** Take element i out of the slice of t, in place. */
    method EraseElement(t: string, i: nat)
      requires Backed() && t in objects && i < |objects[t]|
      modifies this`ranges, this`objects, buffers
      ensures Backed() && objects == old(objects)[t := old(objects[t])[..i] + old(objects[t])[i + 1..]]
    {
      ghost var objs := objects[t];
      var bs := EraseStored(ranges[t], i, objs);
      ranges := ranges[t := bs];
      objects := objects[t := objs[..i] + objs[i + 1..]];
    }

    lemma RowErase(t: string, objs: seq<BlockRange>, rs: seq<Range>, i: nat)
      requires Row(t, objs, rs) && i < |rs|
      ensures |objs| == |rs| && Row(t, objs[..i] + objs[i + 1..], rs[..i] + rs[i + 1..])
    {
    }

    method Erase(t: string, i: nat)
      requires Tied() && Backed() && t in lists && i < |lists[t]|
      modifies this`ranges, this`objects, this`lists, buffers
      ensures Tied() && Backed()
      ensures lists == old(lists)[t := old(lists[t])[..i] + old(lists[t])[i + 1..]]
    {
      hide Backed, Row;
      RowErase(t, objects[t], lists[t], i);
      EraseElement(t, i);
      lists := lists[t := lists[t][..i] + lists[t][i + 1..]];
      assert Row(t, objects[t], lists[t]);
    }

    /** Put r at position i of the slice of t, in place when the capacity suffices. */
    method InsertElement(t: string, i: nat, r: BlockRange, bs: Slice<BlockRange?>)
      requires Backed() && Current(t, bs) && i <= |ObjectsOf(t)|
      modifies this`ranges, this`objects, this`buffers, buffers, bs.buf
      ensures Backed() && objects == old(objects)[t := old(ObjectsOf(t))[..i] + [r] + old(ObjectsOf(t))[i..]]
      ensures buffers >= old(buffers) && fresh(buffers - old(buffers))
    {
      ghost var objs := ObjectsOf(t);
      var after := InsertStored(bs, i, r, objs);
      buffers := buffers + {after.buf};
      ranges := ranges[t := after];
      objects := objects[t := objs[..i] + [r] + objs[i..]];
    }

    ghost method Adopt(t: string, r: BlockRange)
      requires Tied() && r !in owner
      modifies this`owner
      ensures Tied() && owner == old(owner)[r := t]
      ensures Row(t, ObjectsOf(t), ListOf(lists, t))
    {
      owner := owner[r := t];
    }

    lemma RowInsert(t: string, objs: seq<BlockRange>, rs: seq<Range>, i: nat, r: BlockRange)
      requires Row(t, objs, rs) && i <= |rs| && r in owner && owner[r] == t
      ensures |objs| == |rs| && Row(t, objs[..i] + [r] + objs[i..], rs[..i] + [r.Snap()] + rs[i..])
    {
    }

    method Insert(t: string, i: nat, r: BlockRange, bs: Slice<BlockRange?>)
      requires Tied() && Backed() && Current(t, bs) && i <= |ListOf(lists, t)| && r !in owner
      modifies this`ranges, this`objects, this`lists, this`owner, this`buffers, buffers, bs.buf
      ensures Tied() && Backed() && owner == old(owner)[r := t]
      ensures buffers >= old(buffers) && fresh(buffers - old(buffers))
      ensures lists == old(lists)[t := old(ListOf(lists, t))[..i] + [r.Snap()] + old(ListOf(lists, t))[i..]]
    {
      hide Backed, Current, Row;
      ghost var rs, objs := ListOf(lists, t), ObjectsOf(t);
      Adopt(t, r);
      RowInsert(t, objs, rs, i, r);
      InsertElement(t, i, r, bs);
      lists := lists[t := rs[..i] + [r.Snap()] + rs[i..]];
      assert Row(t, objects[t], lists[t]);
    }

    /** Merge two ranges: the left one absorbs the right one. */
    method MergeBoth(t: string, idx: nat, ghost rs: seq<Range>, ghost mid: seq<Range>)
      requires Tied() && Backed() && t in lists && 0 < idx < |lists[t]| && WellFormed(rs)
      requires rs == lists[t] && mid == [Range(rs[idx - 1].start, rs[idx].end)]
      modifies this`ranges, this`objects, this`lists, this`startGauge, this`endGauge, owner.Keys, buffers
      ensures Tied() && Backed()
      ensures lists == old(lists)[t := Splice(rs, idx - 1, idx + 1, mid)]
      ensures Published() == SetAll(DropAll(old(Published()), t, rs[idx - 1..idx + 1]), t, mid)
    {
      hide RangeId, Sets, Drops, Gauges.Set, Gauges.Drop, Tied, Backed;
      var left := Pick(t, idx - 1);
      var right := Pick(t, idx);
      DeleteRange(t, left);
      DeleteRange(t, right);
      Resize(t, idx - 1, left, left.start, right.end);
      Erase(t, idx);
      UpdateThenErase(rs, idx, mid[0]);
      assert mid == [mid[0]];
      DropTwo(old(Published()), t, rs, idx);
      SetOne(old(Published()).Drop(t, rs[idx - 1]).Drop(t, rs[idx]), t, mid);
    }

    /** Give one listed range new bounds, under its new label. */
    method Move(t: string, i: nat, start: uint64, end: uint64, ghost rs: seq<Range>, ghost mid: seq<Range>)
      requires Tied() && Backed() && t in lists && i < |lists[t]| && WellFormed(rs) && start <= end
      requires rs == lists[t] && mid == [Range(start as int, end as int)]
      modifies this`lists, this`startGauge, this`endGauge, owner.Keys
      ensures Tied() && Backed()
      ensures lists == old(lists)[t := Splice(rs, i, i + 1, mid)]
      ensures Published() == SetAll(DropAll(old(Published()), t, rs[i..i + 1]), t, mid)
    {
      hide RangeId, Sets, Drops, Gauges.Set, Gauges.Drop, Tied, Backed;
      var r := Pick(t, i);
      DeleteRange(t, r);
      Resize(t, i, r, start, end);
      assert lists[t] == Splice(rs, i, i + 1, mid);
      DropOne(old(Published()), t, rs, i);
      SetOne(old(Published()).Drop(t, rs[i]), t, mid);
    }

    /** Insert a new range object at i and publish it. */
    method Add(t: string, i: nat, start: uint64, end: uint64, bs: Slice<BlockRange?>)
      requires Tied() && Backed() && Current(t, bs) && i <= |ListOf(lists, t)| && start <= end
      modifies this`ranges, this`objects, this`lists, this`startGauge, this`endGauge, this`owner, this`buffers,
               buffers, bs.buf
      ensures Tied() && Backed() && Footprint() >= old(Footprint()) && fresh(Footprint() - old(Footprint()))
      ensures lists == old(lists)[t := Splice(old(ListOf(lists, t)), i, i, [Range(start as int, end as int)])]
      ensures Published() == old(Published()).Set(t, Range(start as int, end as int))
    {
      hide RangeId, Sets, Drops, Backed, Current;
      var r := new BlockRange(start, end);
      Insert(t, i, r, bs);
      UpdateRange(t, r);
    }

    /** Drop a listed range. */
    method Discard(t: string, i: nat, ghost rs: seq<Range>)
      requires Tied() && Backed() && t in lists && i < |lists[t]| && rs == lists[t]
      modifies this`ranges, this`objects, this`lists, this`startGauge, this`endGauge, buffers
      ensures Tied() && Backed()
      ensures lists == old(lists)[t := Splice(rs, i, i + 1, [])]
      ensures Published() == SetAll(DropAll(old(Published()), t, rs[i..i + 1]), t, [])
    {
      hide RangeId, Sets, Drops, Gauges.Set, Gauges.Drop, Tied, Backed;
      var r := Pick(t, i);
      DeleteRange(t, r);
      Erase(t, i);
      assert rs[..i] + [] == rs[..i];
      DropOne(old(Published()), t, rs, i);
    }

    lemma StoredIsCurrent(t: string)
      requires Tied() && Backed() && t in lists
      ensures t in ranges && ranges[t].buf in buffers && Current(t, ranges[t])
    {
    }

    /** Cut h out of the middle of a listed range. */
    method Split(t: string, i: nat, h: uint64, ghost rs: seq<Range>, ghost mid: seq<Range>)
      requires Tied() && Backed() && t in lists && i < |lists[t]| && WellFormed(rs)
      requires rs == lists[t] && rs[i].start < h as int < rs[i].end
      requires mid == [Range(rs[i].start, h as int - 1), Range(h as int + 1, rs[i].end)]
      modifies this`ranges, this`objects, this`lists, this`startGauge, this`endGauge, this`owner, this`buffers,
               owner.Keys, buffers
      ensures Tied() && Backed() && Footprint() >= old(Footprint()) && fresh(Footprint() - old(Footprint()))
      ensures lists == old(lists)[t := Splice(rs, i, i + 1, mid)]
      ensures Published() == old(Published()).Drop(t, rs[i]).Set(t, mid[0]).Set(t, mid[1])
    {
      hide RangeId, Sets, Drops, Gauges.Set, Gauges.Drop, Splice, WellFormed, Tied, Backed, Current;
      BoundsAt(rs, i);
      var r := Pick(t, i);
      var oldEnd := r.end;
      DeleteRange(t, r);
      Resize(t, i, r, r.start, h - 1);
      StoredIsCurrent(t);
      Add(t, i + 1, h + 1, oldEnd, ranges[t]);
      UpdateThenSplice(rs, i, mid[0], mid[1]);
      assert mid == [mid[0], mid[1]];
    }

    /** Which neighbours of position idx an untracked h meets. */
    method Neighbours(t: string, idx: nat, bs: Slice<BlockRange?>, h: uint64, ghost rs: seq<Range>)
      returns (canMergeLeft: bool, canMergeRight: bool)
      requires Tied() && Backed() && rs == ListOf(lists, t) && WellFormed(rs) && idx <= bs.len == |rs|
      requires idx > 0 ==> rs[idx - 1].end < h as int
      requires idx < |rs| ==> (h as int) < rs[idx].start
      ensures canMergeLeft == MeetsLeft(rs, idx, h as int) && canMergeRight == MeetsRight(rs, idx, h as int)
    {
      hide WellFormed, Tied, Backed;
      canMergeLeft, canMergeRight := false, false;
      if idx > 0 {
        var left := Pick(t, idx - 1);
        BoundsAt(rs, idx - 1);
        canMergeLeft := left.end + 1 == h;
      }
      if idx < bs.len {
        var right := Pick(t, idx);
        BoundsAt(rs, idx);
        canMergeRight := right.start - 1 == h;
      }
    }

    /** Put an untracked h at idx: merge both sides, extend left, extend right, or a new range. */
    method Place(t: string, idx: nat, bs: Slice<BlockRange?>, h: uint64, ghost rs: seq<Range>, ghost mid: seq<Range>)
      requires Tied() && Backed() && Current(t, bs) && rs == ListOf(lists, t) && WellFormed(rs)
      requires idx <= bs.len == |rs|
      requires idx > 0 ==> rs[idx - 1].end < h as int
      requires idx < |rs| ==> (h as int) < rs[idx].start
      requires mid == [Joined(rs, idx, h as int)] && WellFormed(mid)
      modifies this`ranges, this`objects, this`lists, this`startGauge, this`endGauge, this`owner, this`buffers,
               owner.Keys, buffers, bs.buf
      ensures Tied() && Backed() && Footprint() >= old(Footprint()) && fresh(Footprint() - old(Footprint()))
      ensures lists == old(lists)[t := Splice(rs, From(rs, idx, h as int), To(rs, idx, h as int), mid)]
      ensures Published() ==
              SetAll(DropAll(old(Published()), t, rs[From(rs, idx, h as int)..To(rs, idx, h as int)]), t, mid)
    {
      hide RangeId, Sets, Drops, Gauges.Set, Gauges.Drop, SetAll, DropAll, WellFormed, Splice, Tied, Backed, Current;
      var canMergeLeft, canMergeRight := Neighbours(t, idx, bs, h, rs);
      if canMergeLeft && canMergeRight {
        MergeBoth(t, idx, rs, mid);
      } else if canMergeLeft {
        var left := Pick(t, idx - 1);
        BoundsAt(rs, idx - 1);
        Move(t, idx - 1, left.start, h, rs, mid);
      } else if canMergeRight {
        var right := Pick(t, idx);
        BoundsAt(rs, idx);
        Move(t, idx, h, right.end, rs, mid);
      } else {
        DropNone(Published(), t, rs, idx);
        SetOne(Published(), t, mid);
        Add(t, idx, h, h, bs);
      }
    }

    /** RecordMissingBlock up to its deferred total. */
    method InsertHeight(t: string, h: uint64)
      requires Coherent()
      modifies this`ranges, this`objects, this`lists, this`startGauge, this`endGauge, this`owner, this`buffers,
               owner.Keys, buffers
      ensures Coherent() && Footprint() >= old(Footprint()) && fresh(Footprint() - old(Footprint()))
      ensures Inserted(old(ListOf(lists, t)), h as int, ListOf(lists, t))
      ensures forall u :: u != t ==> ListOf(lists, u) == old(ListOf(lists, u))
    {
      hide RangeId, Gauges.Set, Gauges.Drop, Sound, SetAll, DropAll, WellFormed, Fits, Inserted, Splice, From, To;
      hide Joined, Tied, Backed, Current;
      ghost var vs, g := lists, Published();
      ghost var rs := ListOf(vs, t);
      SoundWellFormed(vs, g, t);
      var bs := SliceOf(t);
      var idx := FindRangeIndex(t, bs, h);
      if idx < bs.len {
        var r := Pick(t, idx);
          if h >= r.start && h <= r.end {
          InsertCovered(rs, idx, h as int);
          return;
        }
      }
      InsertAt(rs, idx, h as int);
      ExchangeSound(vs, g, t, From(rs, idx, h as int), To(rs, idx, h as int), [Joined(rs, idx, h as int)]);
      Place(t, idx, bs, h, rs, [Joined(rs, idx, h as int)]);
    }

    /** Take h out of the range that holds it: delete, shrink at one end, or split. */
    method TakeOut(t: string, idx: nat, h: uint64, ghost rs: seq<Range>, ghost mid: seq<Range>)
      requires Tied() && Backed() && t in lists && idx < |rs| && WellFormed(rs)
      requires rs == lists[t] && rs[idx].start <= h as int <= rs[idx].end && mid == Without(rs[idx], h as int)
      requires WellFormed(mid)
      modifies this`ranges, this`objects, this`lists, this`startGauge, this`endGauge, this`owner, this`buffers,
               owner.Keys, buffers
      ensures Tied() && Backed() && Footprint() >= old(Footprint()) && fresh(Footprint() - old(Footprint()))
      ensures lists == old(lists)[t := Splice(rs, idx, idx + 1, mid)]
      ensures Published() == SetAll(DropAll(old(Published()), t, rs[idx..idx + 1]), t, mid)
    {
      hide RangeId, Sets, Drops, Gauges.Set, Gauges.Drop, SetAll, DropAll, WellFormed, Splice, Tied, Backed;
      var r := Pick(t, idx);
      if r.start == r.end {
        Discard(t, idx, rs);
      } else if h == r.start {
        Move(t, idx, r.start + 1, r.end, rs, mid);
      } else if h == r.end {
        Move(t, idx, r.start, r.end - 1, rs, mid);
      } else {
        DropOne(Published(), t, rs, idx);
        SetTwo(Published().Drop(t, rs[idx]), t, mid);
        Split(t, idx, h, rs, mid);
      }
    }

    /** RemoveVerifiedBlock up to its deferred total. */
    method RemoveHeight(t: string, h: uint64)
      requires Coherent()
      modifies this`ranges, this`objects, this`lists, this`startGauge, this`endGauge, this`owner, this`buffers,
               owner.Keys, buffers
      ensures Coherent() && Footprint() >= old(Footprint()) && fresh(Footprint() - old(Footprint()))
      ensures Removed(old(ListOf(lists, t)), h as int, ListOf(lists, t))
      ensures forall u :: u != t ==> ListOf(lists, u) == old(ListOf(lists, u))
    {
      hide RangeId, Gauges.Set, Gauges.Drop, Sound, SetAll, DropAll, WellFormed, Fits, Removed, Splice, Without;
      hide Tied, Backed, Current;
      ghost var vs, g := lists, Published();
      ghost var rs := ListOf(vs, t);
      SoundWellFormed(vs, g, t);
      var bs := SliceOf(t);
      if t !in ranges {
        RemoveAbsent(rs, 0, h as int);
        return;
      }
      var idx := FindRangeIndex(t, bs, h);
      if idx >= bs.len {
        RemoveAbsent(rs, idx, h as int);
        return;
      }
      var r := Pick(t, idx);
      if h < r.start || h > r.end {
        RemoveAbsent(rs, idx, h as int);
        return;
      }
      RemoveFrom(rs, idx, h as int);
      ghost var mid := Without(rs[idx], h as int);
      ExchangeSound(vs, g, t, idx, idx + 1, mid);
      TakeOut(t, idx, h, rs, mid);
    }

    /** Record a missing height: the list of t gains h and keeps its normal form, every other list is
        untouched, and gauges and totals follow. */
    method RecordMissingBlock(t: string, h: uint64)
      requires Valid()
      modifies this, Footprint()
      ensures Valid() && Footprint() >= old(Footprint()) && fresh(Footprint() - old(Footprint()))
      ensures Inserted(old(ListOf(lists, t)), h as int, ListOf(lists, t))
      ensures forall u :: u != t ==> ListOf(lists, u) == old(ListOf(lists, u))
      ensures totalGauge.Keys == old(totalGauge).Keys + {t}
      ensures LabelsExact(lists, Published())
    {
      hide LabelsExact;
      hide Sound, WellFormed, Tied, Backed, TotalsMatch, Inserted, Removed, Count;
      ghost var vs, totals := lists, totalGauge;
      InsertHeight(t, h);
      SoundWellFormed(lists, Published(), t);
      RecordTotalMissingBlocks(t);
      TotalsFollow(vs, totals, lists, totalGauge, t);
      SoundLabels(lists, Published());
    }

    /** Remove a verified height: the list of t loses h and keeps its normal form, every other list is
        untouched, and gauges and totals follow. */
    method RemoveVerifiedBlock(t: string, h: uint64)
      requires Valid()
      modifies this, Footprint()
      ensures Valid() && Footprint() >= old(Footprint()) && fresh(Footprint() - old(Footprint()))
      ensures Removed(old(ListOf(lists, t)), h as int, ListOf(lists, t))
      ensures forall u :: u != t ==> ListOf(lists, u) == old(ListOf(lists, u))
      ensures totalGauge.Keys == old(totalGauge).Keys + {t}
      ensures LabelsExact(lists, Published())
    {
      hide LabelsExact;
      hide Sound, WellFormed, Tied, Backed, TotalsMatch, Inserted, Removed, Count;
      ghost var vs, totals := lists, totalGauge;
      RemoveHeight(t, h);
      SoundWellFormed(lists, Published(), t);
      RecordTotalMissingBlocks(t);
      TotalsFollow(vs, totals, lists, totalGauge, t);
      SoundLabels(lists, Published());
    }
  }
}
