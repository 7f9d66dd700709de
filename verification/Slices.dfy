/** Go slices: a window on a backing array, and append, which writes into the spare capacity behind the
    window when it suffices and moves to a new array when it does not. */
module Slices {

  /** A slice header. As no slice here is cut with a third index, its capacity reaches to the array's end. */
  datatype Slice<T> = Slice(buf: array<T>, off: nat, len: nat) {
    ghost predicate Ok() { off + len <= buf.Length }

    function Cap(): int { buf.Length - off }

    ghost function Elems(): (es: seq<T>)
      requires Ok()
      reads buf
      ensures |es| == len
      ensures forall i :: 0 <= i < len ==> es[i] == buf[off + i]
    {
      buf[off..off + len]
    }

    function At(i: nat): T
      requires Ok() && i < len
      reads buf
    {
      buf[off + i]
    }

    /** s[:i], with all of the capacity behind it. */
    function Head(i: nat): Slice<T> { Slice(buf, off, i) }

    /** s[i:]. */
    function Tail(i: nat): Slice<T>
      requires i <= len
    {
      Slice(buf, off + i, len - i)
    }
  }

  /** copy: as if the source were read before anything is written, also when the two stretches overlap. */
  method Copy<T>(dst: array<T>, at: nat, src: array<T>, from: nat, n: nat)
    requires at + n <= dst.Length && from + n <= src.Length
    modifies dst
    ensures forall i :: 0 <= i < dst.Length ==>
              dst[i] == if at <= i < at + n then old(src[from + i - at]) else old(dst[i])
  {
    if at <= from {
      for k := 0 to n
        invariant forall i :: 0 <= i < dst.Length ==>
                    dst[i] == if at <= i < at + k then old(src[from + i - at]) else old(dst[i])
        invariant forall i :: from + k <= i < from + n ==> src[i] == old(src[i])
      {
        dst[at + k] := src[from + k];
      }
    } else {
      for k := n downto 0
        invariant forall i :: 0 <= i < dst.Length ==>
                    dst[i] == if at + k <= i < at + n then old(src[from + i - at]) else old(dst[i])
        invariant forall i :: from <= i < from + k ==> src[i] == old(src[i])
      {
        dst[at + k] := src[from + k];
      }
    }
  }

  /** append(s, t...) when the spare capacity suffices. */
  method AppendInPlace<T>(s: Slice<T>, t: Slice<T>) returns (r: Slice<T>)
    requires s.Ok() && t.Ok() && s.len + t.len <= s.Cap()
    modifies s.buf
    ensures r.Ok() && r.buf == s.buf && r.off == s.off
    ensures r.Elems() == old(s.Elems()) + old(t.Elems())
  {
    ghost var es, fs := s.Elems(), t.Elems();
    Copy(s.buf, s.off + s.len, t.buf, t.off, t.len);
    r := Slice(s.buf, s.off, s.len + t.len);
    assert forall i :: 0 <= i < r.len ==> r.Elems()[i] == (es + fs)[i];
  }

  /** append(s, t...) into a new array. How much spare capacity it gets is the runtime's choice. */
  method AppendAfresh<T(0)>(s: Slice<T>, t: Slice<T>) returns (r: Slice<T>)
    requires s.Ok() && t.Ok()
    ensures r.Ok() && fresh(r.buf) && r.off == 0
    ensures r.Elems() == s.Elems() + t.Elems()
  {
    var n := s.len + t.len;
    var room: nat :| n <= room;
    var buf := new T[room];
    Copy(buf, 0, s.buf, s.off, s.len);
    Copy(buf, s.len, t.buf, t.off, t.len);
    r := Slice(buf, 0, n);
    assert forall i :: 0 <= i < r.len ==> r.Elems()[i] == (s.Elems() + t.Elems())[i];
  }

  method Append<T(0)>(s: Slice<T>, t: Slice<T>) returns (r: Slice<T>)
    requires s.Ok() && t.Ok()
    modifies s.buf
    ensures r.Ok() && r.Elems() == old(s.Elems()) + old(t.Elems())
    ensures s.len + t.len <= s.Cap() ==> r.buf == s.buf && r.off == s.off
    ensures s.len + t.len > s.Cap() ==> fresh(r.buf) && r.off == 0
  {
    if s.len + t.len <= s.Cap() {
      r := AppendInPlace(s, t);
    } else {
      r := AppendAfresh(s, t);
    }
  }

  /** append(s[:i], s[i+1:]...): always in place, the tail moving over the element that goes. */
  method Erase<T(0)>(s: Slice<T>, i: nat) returns (r: Slice<T>)
    requires s.Ok() && i < s.len
    modifies s.buf
    ensures r.Ok() && r.buf == s.buf && r.off == s.off
    ensures r.Elems() == old(s.Elems()[..i] + s.Elems()[i + 1..])
  {
    assert s.Head(i).Elems() == s.Elems()[..i] && s.Tail(i + 1).Elems() == s.Elems()[i + 1..];
    r := Append(s.Head(i), s.Tail(i + 1));
  }

  /** append([]T{x}, s...): the literal has no spare capacity, so a non-empty s is copied to a new array. */
  method Prepend<T(0)>(x: T, s: Slice<T>) returns (r: Slice<T>)
    requires s.Ok()
    ensures r.Ok() && fresh(r.buf) && r.Elems() == [x] + s.Elems()
  {
    var one := new T[1];
    one[0] := x;
    assert Slice(one, 0, 1).Elems() == [x];
    r := Append(Slice(one, 0, 1), s);
  }

  /** append(s[:i], append([]T{x}, s[i:]...)...): the inner append saves the tail before the outer one
      writes over it. */
  method Insert<T(0)>(s: Slice<T>, i: nat, x: T) returns (r: Slice<T>)
    requires s.Ok() && i <= s.len
    modifies s.buf
    ensures r.Ok() && r.off == (if s.len < s.Cap() then s.off else 0)
    ensures if s.len < s.Cap() then r.buf == s.buf else fresh(r.buf)
    ensures r.Elems() == old(s.Elems()[..i] + [x] + s.Elems()[i..])
  {
    ghost var front, back := s.Elems()[..i], s.Elems()[i..];
    assert s.Head(i).Elems() == front && s.Tail(i).Elems() == back;
    var tail := Prepend(x, s.Tail(i));
    assert |tail.Elems()| == 1 + |back|;
    r := Append(s.Head(i), tail);
    assert front + [x] + back == front + ([x] + back);
  }
}
