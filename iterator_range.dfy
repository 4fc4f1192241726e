// A model of SeqAn's `Range<TIterator>`: a non-owning view of the elements
// between two iterators of a sequence that someone else owns.
//
// The host sequence is a Dafny array, shared by reference, so a write through
// a view is visible through the array and through every other view of it.
// An iterator is a position in such an array; the default-constructed
// iterator is singular and has no array.

module IteratorRange {
  import opened Pipes

  /** A standard iterator: a position `pos` in the array `host`.
      `Iter(null, 0)` is the singular, default-constructed iterator. */
  datatype Iter<T> = Iter(host: array?<T>, pos: int)

  /** `b` and `e` delimit a range: the same host, `e` reachable from `b`,
      and both within the host. */
  predicate IsRange<T>(b: Iter<T>, e: Iter<T>) {
    b.host == e.host &&
    if b.host == null then b.pos == 0 && e.pos == 0
    else 0 <= b.pos <= e.pos <= b.host.Length
  }

  /** `++it`. */
  function Next<T>(it: Iter<T>): Iter<T> {
    Iter(it.host, it.pos + 1)
  }

  /** `begin(cont, Standard())` and `end(cont, Standard())` of a container
      whose storage is the array `cont`. */
  function ContainerBegin<T>(cont: array<T>): Iter<T> {
    Iter(cont, 0)
  }

  function ContainerEnd<T>(cont: array<T>): Iter<T> {
    Iter(cont, cont.Length)
  }

  /** The storage `s` after the `|items|` slots starting at `at` have been
      overwritten with `items`, in order. */
  function Fill<T>(s: seq<T>, at: nat, items: seq<T>): (r: seq<T>)
    requires at + |items| <= |s|
    ensures |r| == |s|
    ensures forall i :: 0 <= i < |s| ==>
      r[i] == if at <= i < at + |items| then items[i - at] else s[i]
  {
    s[..at] + items + s[at + |items|..]
  }

  /** Writing the next element extends a partial fill by one slot. */
  lemma FillStep<T>(s: seq<T>, at: nat, items: seq<T>, k: nat)
    requires at + |items| <= |s| && k < |items|
    ensures Fill(s, at, items[..k])[at + k := items[k]] == Fill(s, at, items[..k + 1])
  {
  }

  /** After a fill, the filled slots hold exactly the items. */
  lemma FillWindow<T>(s: seq<T>, at: nat, items: seq<T>)
    requires at + |items| <= |s|
    ensures Fill(s, at, items)[at..at + |items|] == items
  {
  }

  /** The increments a fill of `n` slots issues, in the order it issues them. */
  function Advances(n: nat): seq<Signal> {
    if n == 0 then [] else Advances(n - 1) + [Advanced(n - 1)]
  }

  /** Everything a fill of `n` slots asks of its producer. */
  function FillTrace(n: nat): seq<Signal> {
    [ReadBegun] + Advances(n) + [ReadEnded]
  }

  /** How often `sig` occurs in `t`. */
  function Count(t: seq<Signal>, sig: Signal): nat {
    if t == [] then 0 else (if t[0] == sig then 1 else 0) + Count(t[1..], sig)
  }

  /** The increments move over the elements one by one, in increasing order. */
  lemma {:induction false} AdvancesInOrder(n: nat)
    ensures |Advances(n)| == n
    ensures forall k :: 0 <= k < n ==> Advances(n)[k] == Advanced(k)
  {
    if n > 0 {
      AdvancesInOrder(n - 1);
    }
  }

  /** Counting distributes over concatenation. */
  lemma {:induction false} CountAppend(t: seq<Signal>, u: seq<Signal>, sig: Signal)
    ensures Count(t + u, sig) == Count(t, sig) + Count(u, sig)
  {
    if t != [] {
      assert (t + u)[1..] == t[1..] + u;
      CountAppend(t[1..], u, sig);
    } else {
      assert t + u == u;
    }
  }

  /** No increment is a begin-read or an end-read signal. */
  lemma {:induction false} AdvancesHaveNoBrackets(n: nat)
    ensures Count(Advances(n), ReadBegun) == 0
    ensures Count(Advances(n), ReadEnded) == 0
  {
    if n > 0 {
      AdvancesHaveNoBrackets(n - 1);
      CountAppend(Advances(n - 1), [Advanced(n - 1)], ReadBegun);
      CountAppend(Advances(n - 1), [Advanced(n - 1)], ReadEnded);
    }
  }

  /** A fill of `n` slots signals begin-read exactly once, first, and
      end-read exactly once, last, with exactly `n` increments in between,
      over indices 0, 1, ..., n - 1 in that order. */
  lemma FillTraceBracketed(n: nat)
    ensures |FillTrace(n)| == n + 2
    ensures FillTrace(n)[0] == ReadBegun && FillTrace(n)[n + 1] == ReadEnded
    ensures forall k :: 1 <= k <= n ==> FillTrace(n)[k] == Advanced(k - 1)
    ensures Count(FillTrace(n), ReadBegun) == 1
    ensures Count(FillTrace(n), ReadEnded) == 1
  {
    AdvancesInOrder(n);
    AdvancesHaveNoBrackets(n);
    CountAppend([ReadBegun] + Advances(n), [ReadEnded], ReadBegun);
    CountAppend([ReadBegun] + Advances(n), [ReadEnded], ReadEnded);
    CountAppend([ReadBegun], Advances(n), ReadBegun);
    CountAppend([ReadBegun], Advances(n), ReadEnded);
  }

  /** `Range<TIterator>`: the pair of iterators `_begin` and `_end`. */
  class Range<T> {
    var beginIter: Iter<T>
    var endIter: Iter<T>

    ghost predicate Valid()
      reads this
    {
      IsRange(beginIter, endIter)
    }

    /** The array the view refers to, or null for a default-constructed view. */
    function Host(): array?<T>
      reads this
    {
      beginIter.host
    }

    /** The elements the view shows, in order. */
    ghost function Contents(): (s: seq<T>)
      reads this, Host()
      requires Valid()
      ensures |s| == Length()
    {
      if Host() == null then [] else Host()[beginIter.pos..endIter.pos]
    }

    /** `Range()`: the empty view over no storage. */
    constructor ()
      ensures Valid() && beginIter == endIter == Iter(null, 0)
      ensures Length() == 0 && Contents() == []
    {
      beginIter, endIter := Iter(null, 0), Iter(null, 0);
    }

    /** `Range(cont)` for a mutable or a const container: a view of all of it. */
    constructor FromContainer(cont: array<T>)
      ensures Valid()
      ensures beginIter == ContainerBegin(cont) && endIter == ContainerEnd(cont)
      ensures Length() == cont.Length && Contents() == cont[..]
    {
      beginIter, endIter := ContainerBegin(cont), ContainerEnd(cont);
    }

    /** `Range(begin, end)`. */
    constructor FromIters(b: Iter<T>, e: Iter<T>)
      requires IsRange(b, e)
      ensures Valid() && beginIter == b && endIter == e
      ensures Length() == e.pos - b.pos
    {
      beginIter, endIter := b, e;
    }

    /** `begin(view, Standard())`: the stored begin iterator; under the
        invariant it starts a range that the end iterator closes. */
    function Begin(): (it: Iter<T>)
      reads this
      ensures Valid() ==> IsRange(it, endIter)
    {
      beginIter
    }

    /** `end(view, Standard())`: the stored end iterator; under the invariant
        it closes a range that the begin iterator starts. */
    function End(): (it: Iter<T>)
      reads this
      ensures Valid() ==> IsRange(beginIter, it)
    {
      endIter
    }

    /** `length(view)`: the iterator difference, never negative under the
        invariant and never reaching past the host. */
    function Length(): (n: int)
      reads this
      ensures Valid() ==> 0 <= n
      ensures Valid() && Host() != null ==> beginIter.pos + n <= Host().Length
      ensures Valid() && Host() == null ==> n == 0
    {
      endIter.pos - beginIter.pos
    }

    /** `value(view, pos)` and `view[pos]` read: the element `pos` places
        after the begin iterator. */
    function Value(pos: int): (x: T)
      reads this, Host()
      requires Valid() && 0 <= pos < Length()
      ensures x == Contents()[pos]
    {
      beginIter.host[beginIter.pos + pos]
    }

    /** `value(view, pos) = x` and `view[pos] = x`: the reference they
        return is into the host, so the write lands in the shared storage,
        in exactly one cell. */
    method SetValue(pos: int, x: T)
      requires Valid() && 0 <= pos < Length()
      modifies Host()
      ensures Host() != null
      ensures Host()[..] == old(Host()[..])[beginIter.pos + pos := x]
      ensures Contents() == old(Contents())[pos := x]
    {
      beginIter.host[beginIter.pos + pos] := x;
    }

    /** `resize(view, newLength)`: a view cannot change the extent of its
        host, so the only length it accepts is the one it has. */
    method Resize(newLength: int) returns (n: nat)
      requires Valid() && newLength == Length()
      ensures n == Length() && n == newLength
    {
      n := Length();
    }

    /** `assign(view, cont)`: rebinds the view to all of `cont`. The new
        bounds depend on `cont` alone, so nothing of the old binding remains. */
    method Assign(cont: array<T>)
      modifies this
      ensures Valid()
      ensures beginIter == ContainerBegin(cont) && endIter == ContainerEnd(cont)
      ensures Length() == cont.Length && Contents() == cont[..]
    {
      beginIter := ContainerBegin(cont);
      endIter := ContainerEnd(cont);
    }

    /** `view = cont`: the same rebinding, returning the view itself. */
    method AssignOperator(cont: array<T>) returns (self: Range<T>)
      modifies this
      ensures self == this && Valid()
      ensures beginIter == ContainerBegin(cont) && endIter == ContainerEnd(cont)
      ensures Length() == cont.Length && Contents() == cont[..]
    {
      Assign(cont);
      self := this;
    }

    /** `assign(view, other)` and `view = other` where the container is itself
        a view: `begin(other)` and `end(other)` are its stored iterators, so
        the view is rebound to exactly the sub-range `other` shows. */
    method AssignView(other: Range<T>)
      requires other.Valid()
      modifies this
      ensures Valid()
      ensures beginIter == old(other.beginIter) && endIter == old(other.endIter)
      ensures Length() == old(other.Length()) && Contents() == old(other.Contents())
    {
      beginIter, endIter := other.Begin(), other.End();
    }
  }

  /** `toRange(begin, end)`. */
  method ToRange<T>(b: Iter<T>, e: Iter<T>) returns (r: Range<T>)
    requires IsRange(b, e)
    ensures fresh(r) && r.Valid()
    ensures r.Begin() == b && r.End() == e && r.Length() == e.pos - b.pos
  {
    r := new Range.FromIters(b, e);
  }

  /** `assign(dest, src)` for a pipe `src`: overwrites the view's slots, in
      order, with one pass over the producer. The view's bounds and every
      cell of the host outside them stay as they were. */
  method AssignFromPipe<T>(dest: Range<T>, src: Pipe<T>)
    requires dest.Valid() && src.Valid()
    requires src.Length() == dest.Length()
    modifies dest.Host(), src
    ensures unchanged(dest) && dest.Valid()
    ensures dest.Host() != null ==>
      dest.Host()[..] == Fill(old(dest.Host()[..]), dest.beginIter.pos, src.items)
    ensures dest.Contents() == src.items
    ensures src.Valid() && !src.reading && src.cur == |src.items|
    ensures src.log == old(src.log) + FillTrace(dest.Length())
  {
    var _ := dest.Resize(src.Length());
    src.BeginRead();
    ghost var host := dest.Host();
    ghost var at: nat := dest.beginIter.pos;
    var cur, stop := dest.Begin(), dest.End();
    while cur != stop
      invariant cur.host == host && stop == dest.endIter
      invariant at <= cur.pos <= stop.pos
      invariant src.Valid() && src.reading && src.cur == cur.pos - at
      invariant src.log == old(src.log) + [ReadBegun] + Advances(src.cur)
      invariant host != null ==>
        host[..] == Fill(old(host[..]), at, src.items[..src.cur])
      decreases stop.pos - cur.pos
    {
      ghost var k := src.cur;
      FillStep(old(host[..]), at, src.items, k);
      cur.host[cur.pos] := src.Current();
      cur := Next(cur);
      src.Advance();
    }
    assert src.items[..src.cur] == src.items;
    src.EndRead();
    if host != null {
      FillWindow(old(host[..]), at, src.items);
      assert dest.Contents() == host[..][at..dest.endIter.pos];
    }
  }

  /** `dest << src` for a pipe `src`: the same fill. */
  method ShiftIn<T>(dest: Range<T>, src: Pipe<T>)
    requires dest.Valid() && src.Valid()
    requires src.Length() == dest.Length()
    modifies dest.Host(), src
    ensures unchanged(dest) && dest.Valid()
    ensures dest.Host() != null ==>
      dest.Host()[..] == Fill(old(dest.Host()[..]), dest.beginIter.pos, src.items)
    ensures dest.Contents() == src.items
    ensures src.Valid() && !src.reading && src.cur == |src.items|
    ensures src.log == old(src.log) + FillTrace(dest.Length())
  {
    AssignFromPipe(dest, src);
  }
}
