// The sequential producer ("pipe") that a Range can be filled from.
//
// Only the interface the fill loop of iterator_range.h uses is modelled:
// the producer's length, the begin-read and end-read signals, dereference of
// the current element and increment. What the producer computes is given up
// front as the sequence `items` it yields; a ghost log records the signals
// and increments it receives, so that callers can state in which order and
// how often they were issued.

module Pipes {

  /** One thing a producer was asked to do. `Advanced(i)` is the increment
      that moves past the element with index `i`. */
  datatype Signal = ReadBegun | Advanced(index: nat) | ReadEnded

  class Pipe<T> {
    /** The elements the producer yields, in order. */
    const items: seq<T>
    /** Index of the element that dereferencing yields now. */
    var cur: nat
    /** True between the begin-read and the end-read signal. */
    var reading: bool
    /** Every signal and increment received, oldest first. */
    ghost var log: seq<Signal>

    ghost predicate Valid()
      reads this
    {
      cur <= |items|
    }

    constructor (items: seq<T>)
      ensures Valid() && this.items == items
      ensures cur == 0 && !reading && log == []
    {
      this.items := items;
      cur := 0;
      reading := false;
      log := [];
    }

    /** `length(src)`: how many elements the producer yields in one pass. */
    function Length(): nat
    {
      |items|
    }

    /** `beginRead(src)`: prepares the producer for one pass from its first element. */
    method BeginRead()
      modifies this
      ensures Valid() && reading && cur == 0
      ensures log == old(log) + [ReadBegun]
    {
      reading := true;
      cur := 0;
      log := log + [ReadBegun];
    }

    /** `*src`: the element the producer currently yields. */
    function Current(): T
      reads this
      requires Valid() && reading && cur < |items|
    {
      items[cur]
    }

    /** `++src`: moves to the next element. */
    method Advance()
      requires Valid() && reading && cur < |items|
      modifies this
      ensures Valid() && reading && cur == old(cur) + 1
      ensures log == old(log) + [Advanced(old(cur))]
    {
      log := log + [Advanced(cur)];
      cur := cur + 1;
    }

    /** `endRead(src)`: ends the pass. */
    method EndRead()
      requires Valid() && reading
      modifies this
      ensures Valid() && !reading && cur == old(cur)
      ensures log == old(log) + [ReadEnded]
    {
      reading := false;
      log := log + [ReadEnded];
    }
  }
}
