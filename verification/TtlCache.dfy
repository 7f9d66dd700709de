/** The time-to-live maps of internal/clients/celestia/client.go, swept on every insert. */
module TtlCache {
  import opened Options

  /** expires is the last instant at which the entry is served. */
  datatype Entry<V> = Entry(value: V, expires: int)

  predicate Expired<V>(e: Entry<V>, now: int) { now > e.expires }

  function Lookup<K, V>(m: map<K, Entry<V>>, k: K, now: int): Option<V>
  {
    if k in m && !Expired(m[k], now) then Some(m[k].value) else None
  }

  ghost function Sweep<K, V>(m: map<K, Entry<V>>, now: int): map<K, Entry<V>>
  {
    map k | k in m && !Expired(m[k], now) :: m[k]
  }

  ghost function PutSwept<K, V>(m: map<K, Entry<V>>, k: K, v: V, ttl: int, now: int): map<K, Entry<V>>
  {
    Sweep(m, now)[k := Entry(v, now + ttl)]
  }

  class Cache<K(==), V> {
    var entries: map<K, Entry<V>>

    constructor ()
      ensures entries == map[]
    {
      entries := map[];
    }

    /** cacheGet: an entry is served up to and including its expiry instant. */
    method Get(k: K, now: int) returns (v: Option<V>)
      ensures v.Some? <==> k in entries && now <= entries[k].expires
      ensures v.Some? ==> v.value == entries[k].value
      ensures v == Lookup(entries, k, now)
    {
      if k !in entries || now > entries[k].expires { return None; }
      return Some(entries[k].value);
    }

    /** cachePut: delete every expired entry, then insert. */
    method Put(k: K, v: V, ttl: int, now: int)
      modifies this
      ensures entries == PutSwept(old(entries), k, v, ttl, now)
    {
      var todo := entries.Keys;
      while todo != {}
        invariant todo <= entries.Keys
        invariant entries.Keys <= old(entries).Keys
        invariant forall x :: x in entries ==> entries[x] == old(entries)[x]
        invariant forall x :: x in old(entries) && x !in todo ==> (x in entries <==> !Expired(old(entries)[x], now))
        decreases |todo|
      {
        var key :| key in todo;
        todo := todo - {key};
        if now > entries[key].expires { entries := entries - {key}; }
      }
      assert entries == Sweep(old(entries), now);
      entries := entries[k := Entry(v, now + ttl)];
    }
  }

  // ----- the sweep is invisible

  datatype Op<K, V> = GetOp(k: K) | PutOp(k: K, v: V, ttl: int)

  datatype Timed<K, V> = Timed(now: int, op: Op<K, V>)

  /** The map after an operation, with the sweep or without it. */
  ghost function Applied<K, V>(m: map<K, Entry<V>>, t: Timed<K, V>, sweep: bool): map<K, Entry<V>>
  {
    match t.op
    case GetOp(_) => m
    case PutOp(k, v, ttl) => if sweep then PutSwept(m, k, v, ttl, t.now) else m[k := Entry(v, t.now + ttl)]
  }

  ghost function Replay<K, V>(ops: seq<Timed<K, V>>, sweep: bool): map<K, Entry<V>>
  {
    if ops == [] then map[] else Applied(Replay(ops[..|ops| - 1], sweep), ops[|ops| - 1], sweep)
  }

  ghost predicate Monotone<K, V>(ops: seq<Timed<K, V>>)
  {
    forall i, j :: 0 <= i < j < |ops| ==> ops[i].now <= ops[j].now
  }

  lemma {:induction false} SweptWithinKept<K(!new), V(!new)>(ops: seq<Timed<K, V>>, k: K)
    requires Monotone(ops)
    ensures var swept, kept := Replay(ops, true), Replay(ops, false);
            && (k in swept ==> k in kept && swept[k] == kept[k])
            && (k in kept && k !in swept ==> ops != [] && Expired(kept[k], ops[|ops| - 1].now))
  {
    if ops == [] {
    } else {
      SweptWithinKept(ops[..|ops| - 1], k);
    }
  }

  /** With a clock that does not go back, any run of puts and gets answers as a map that never deletes. */
  lemma {:induction false} SweepInvisible<K(!new), V(!new)>(ops: seq<Timed<K, V>>, k: K, now: int)
    requires Monotone(ops) && (ops != [] ==> ops[|ops| - 1].now <= now)
    ensures Lookup(Replay(ops, true), k, now) == Lookup(Replay(ops, false), k, now)
  {
    SweptWithinKept(ops, k);
  }

  // ----- any clock

  predicate Puts<K(==), V>(t: Timed<K, V>, k: K) { t.op.PutOp? && t.op.k == k }

  /** The position of the last put of k, or -1. */
  ghost function LastPut<K, V>(ops: seq<Timed<K, V>>, k: K): (p: int)
    ensures -1 <= p < |ops|
    ensures p >= 0 ==> Puts(ops[p], k)
    ensures forall q :: p < q < |ops| ==> !Puts(ops[q], k)
  {
    if ops == [] then -1
    else if Puts(ops[|ops| - 1], k) then |ops| - 1
    else LastPut(ops[..|ops| - 1], k)
  }

  /** The last instant at which what a put stores is served. */
  ghost function Expiry<K, V>(t: Timed<K, V>): int
    requires t.op.PutOp?
  {
    t.now + t.op.ttl
  }

  /** A later put found the entry of put p expired. */
  ghost predicate SweptOut<K, V>(ops: seq<Timed<K, V>>, p: int)
    requires 0 <= p < |ops| && ops[p].op.PutOp?
  {
    exists q :: p < q < |ops| && ops[q].op.PutOp? && Expiry(ops[p]) < ops[q].now
  }

  lemma SweptOutGrows<K(!new), V(!new)>(ops: seq<Timed<K, V>>, p: nat)
    requires p < |ops| - 1 && ops[p].op.PutOp?
    ensures var last := ops[|ops| - 1];
            SweptOut(ops, p) <==> SweptOut(ops[..|ops| - 1], p) || (last.op.PutOp? && Expiry(ops[p]) < last.now)
  {
    var init := ops[..|ops| - 1];
    if SweptOut(init, p) {
      var q :| p < q < |init| && init[q].op.PutOp? && Expiry(init[p]) < init[q].now;
      assert ops[q] == init[q];
    }
    if SweptOut(ops, p) {
      var q :| p < q < |ops| && ops[q].op.PutOp? && Expiry(ops[p]) < ops[q].now;
      assert q < |init| ==> init[q] == ops[q];
    }
  }

  lemma {:induction false} LastPutDecides<K(!new), V(!new)>(ops: seq<Timed<K, V>>, k: K)
    ensures var swept, kept, p := Replay(ops, true), Replay(ops, false), LastPut(ops, k);
            if p < 0 then k !in swept && k !in kept
            else && k in kept && kept[k] == Entry(ops[p].op.v, Expiry(ops[p]))
                 && (k in swept <==> !SweptOut(ops, p)) && (k in swept ==> swept[k] == kept[k])
  {
    if ops == [] {
    } else {
      var init, p := ops[..|ops| - 1], LastPut(ops, k);
      LastPutDecides(init, k);
      if 0 <= p < |init| {
        SweptOutGrows(ops, p);
      }
    }
  }

  /** For any clock, going back or not: the sweep shows in a lookup exactly when a put after the key's last
      put found that entry expired, and yet the lookup's instant is not past the expiry. */
  lemma SweepShowsExactly<K(!new), V(!new)>(ops: seq<Timed<K, V>>, k: K, now: int)
    ensures Lookup(Replay(ops, true), k, now) != Lookup(Replay(ops, false), k, now) <==>
            var p := LastPut(ops, k);
            p >= 0 && SweptOut(ops, p) && now <= Expiry(ops[p])
  {
    hide LastPut, SweptOut, Replay;
    LastPutDecides(ops, k);
  }

  /** A run with a clock that goes back in which the sweep shows. */
  lemma SweepVisibleIfClockGoesBack(a: int, b: int)
    ensures var ops := [Timed(0, PutOp(a, 7, 10)), Timed(20, PutOp(a + 1, b, 10))];
            Lookup(Replay(ops, true), a, 5) == None && Lookup(Replay(ops, false), a, 5) == Some(7)
  {
    var ops := [Timed(0, PutOp(a, 7, 10)), Timed(20, PutOp(a + 1, b, 10))];
    assert ops[..1] == [Timed(0, PutOp(a, 7, 10))] && ops[..1][..0] == [];
    assert Replay(ops[..1], true) == map[a := Entry(7, 10)];
    assert Replay(ops[..1], false) == map[a := Entry(7, 10)];
  }

  /** Right after a put no expired entry remains, exactly when the time to live is not negative. */
  lemma NoneExpiredAfterPut<K(!new), V(!new)>(m: map<K, Entry<V>>, k: K, v: V, ttl: int, now: int)
    ensures (forall x :: x in PutSwept(m, k, v, ttl, now) ==> !Expired(PutSwept(m, k, v, ttl, now)[x], now))
       <==> ttl >= 0
  {
    assert k in PutSwept(m, k, v, ttl, now);
  }
}
