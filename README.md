# SeqAn `Range<TIterator>` in Dafny

This project models SeqAn's iterator range (`include/extras/seqan/sequence/iterator_range.h`):
a non-owning view of the elements between a begin and an end iterator of a
sequence that someone else owns. It proves what the view promises about
construction, accessors, write-through element access, the validated no-op
`resize`, rebinding, and filling the view from a sequential producer ("pipe").

- `pipe.dfy`, module `Pipes`: the producer interface the fill loop uses. A
  `Pipe` holds the elements it yields (`items`), a cursor, a "reading" flag and
  a ghost log of the signals it received (`ReadBegun`, `Advanced(i)`,
  `ReadEnded`).
- `iterator_range.dfy`, module `IteratorRange`: the iterator (`Iter`, a position
  in a shared array, with `Iter(null, 0)` as the singular default iterator),
  the class `Range` with the two iterator fields, the free functions, and the
  specification functions `Fill` and `FillTrace` that the pipe fill is proved
  against.
- `scenario.dfy`, module `RangeClient`: client methods that reach conclusions
  from the contracts alone: a view of `[10, 20, 30, 40, 50]` read and written
  through, two views aliasing one array, vacuous resizes, rebinding to an array
  and to another view, copies versus shared references, and pipe
  fills of a whole, a middle and an empty view.

The host sequence is a Dafny `array`, shared by reference. A write through a
view therefore lands in the same storage the container and every other view
see. The invariant of a view, `Range.Valid()`, is `IsRange(begin, end)`: both
iterators have the same host, and `0 <= begin <= end <= host length` (both
positions 0 when there is no host).

Three conditions the source leaves unchecked are caller obligations in the model:
- element access: `value` and `operator[]` (iterator_range.h:110-124, 254-266)
  dereference `begin + pos` with no bounds check, not even a debug assertion.
  The model requires `0 <= pos < length`. The source itself reads or writes a
  host cell outside the view for a position outside that range that still
  lands inside the host (for a view of host cells 1..3, position -1 is host
  cell 0); only beyond the host is the access undefined. The model does not
  admit those out-of-view accesses.
- the view invariant: `Range(begin, end)` (iterator_range.h:87-91) and
  `toRange` (iterator_range.h:329-335) store any pair of iterators. The model
  requires `IsRange(begin, end)`: both iterators in the same host and
  `begin <= end` within it.
- a length mismatch between producer and view is a failed debug assertion in
  `resize` (iterator_range.h:296). The model states it as the `requires` of
  `Resize`, `AssignFromPipe` and `ShiftIn`.

## Model

| member | source | states |
|---|---|---|
| IteratorRange.Range.constructor | include/extras/seqan/sequence/iterator_range.h:67-71 | the default view has two equal singular iterators, length 0 and no elements |
| IteratorRange.Range.FromContainer | include/extras/seqan/sequence/iterator_range.h:73-85 | a view built from a container has the container's begin and end, its length and exactly its elements |
| IteratorRange.Range.FromIters | include/extras/seqan/sequence/iterator_range.h:87-91 | a view built from an iterator pair stores the pair verbatim and its length is their difference |
| IteratorRange.ToRange | include/extras/seqan/sequence/iterator_range.h:329-335 | toRange(b, e) yields a fresh valid view whose begin is b, whose end is e and whose length is e - b |
| IteratorRange.Range.Begin | include/extras/seqan/sequence/iterator_range.h:218-230 | begin returns the stored begin iterator verbatim |
| IteratorRange.Range.End | include/extras/seqan/sequence/iterator_range.h:236-248 | end returns the stored end iterator verbatim |
| IteratorRange.Range.Length | include/extras/seqan/sequence/iterator_range.h:272-277 | the length of a valid view is non-negative, 0 without a host, and begin + length stays within the host |
| IteratorRange.Range.Contents | include/extras/seqan/sequence/iterator_range.h:60-61 | the elements between the two iterators number exactly length(view) |
| IteratorRange.Range.Value | include/extras/seqan/sequence/iterator_range.h:254-266 | value(view, pos) is element pos of the view's contents, that is the host cell at begin + pos |
| IteratorRange.Range.SetValue | include/extras/seqan/sequence/iterator_range.h:110-116 | writing through view[pos] changes the host cell at begin + pos and no other cell of the shared array |
| IteratorRange.Range.Resize | include/extras/seqan/sequence/iterator_range.h:287-298 | resize accepts only the current length, returns it, and changes nothing, so repeating it is harmless |
| IteratorRange.Range.Assign | include/extras/seqan/sequence/iterator_range.h:304-310 | assign(view, cont) rebinds the view to the whole of cont; the new bounds depend on cont alone |
| IteratorRange.Range.AssignOperator | include/extras/seqan/sequence/iterator_range.h:97-104 | view = cont performs the same rebinding and returns the view itself |
| IteratorRange.Range.AssignView | include/extras/seqan/sequence/iterator_range.h:304-310 | assign(view, other) with another view as the container rebinds the view to exactly the other view's iterators, length and elements |
| IteratorRange.Fill | include/extras/seqan/sequence/iterator_range.h:349-350 | after filling, slot at + i holds item i and every other cell keeps its old value |
| IteratorRange.FillStep | include/extras/seqan/sequence/iterator_range.h:350 | one loop step, writing the current element at the next slot, extends a partial fill by one element |
| IteratorRange.FillWindow | include/extras/seqan/sequence/iterator_range.h:349-350 | after a fill the view's slots hold exactly the produced items |
| IteratorRange.AdvancesInOrder | include/extras/seqan/sequence/iterator_range.h:349 | a fill of n slots increments the producer n times, over indices 0 to n - 1 in increasing order |
| IteratorRange.AdvancesHaveNoBrackets | include/extras/seqan/sequence/iterator_range.h:349 | the increments of the fill loop contain no begin-read and no end-read signal |
| IteratorRange.FillTraceBracketed | include/extras/seqan/sequence/iterator_range.h:347-351 | a fill signals begin-read exactly once and first, end-read exactly once and last, with exactly n in-order increments between them |
| IteratorRange.AssignFromPipe | include/extras/seqan/sequence/iterator_range.h:341-352 | the pipe fill requires equal lengths, leaves the view's bounds and every host cell outside them unchanged, stores item i at begin + i, and issues exactly FillTrace(length) to the producer |
| IteratorRange.ShiftIn | include/extras/seqan/sequence/iterator_range.h:354-360 | dest << src is the same fill with the same guarantees |

## Left out

- Stream output `operator<<` (iterator_range.h:316-323): it only forwards to a generic `write` of the sequence library, which is not part of this model.
- The metafunctions `IsView`, `Value`, `GetValue`, `Reference`, `Iterator`, `Difference` and `Size` (iterator_range.h:135-208): compile-time type plumbing. The element type is the type parameter `T`, positions and lengths are `int` and `nat`.
- Const-correctness: the const and the mutable overloads of the container constructor, `begin`, `end` and `value` compute the same thing. Dafny has no const references, so each pair is one member, and read-only access is not enforced by the type.
- Containers other than arrays: the rest of the sequence library is not part of this model. A container is an array whose begin is position 0 and whose end is its length. A container that is itself a `Range` is covered by `Range.FromIters` with its begin and end for construction, and by `Range.AssignView` for `assign` and `operator=`.
- IteratorRange.Range.Resize: the expansion tag argument and the cast of the length to the argument's integer type (iterator_range.h:292, 296) are not modelled; the length is compared as an unbounded integer.
- Value semantics of the view itself: in C++ a `Range` is a value, so `Range w = v;` and the result of `toRange` are independent copies. Here a `Range` is an object shared by reference, so a second name for the same object follows every rebinding; an independent copy is made with `ToRange(v.Begin(), v.End())`, as `RangeClient.CopyScenario` shows.
- The `SEQAN_HOST_DEVICE` host/device annotations: not behaviour.
- Iterator lifetime: the model's arrays are never freed, so a view cannot outlive its storage here.
- The producer's internals: a `Pipe` yields a fixed sequence of items. The model assumes that `beginRead` starts a pass at the first item; the real pipe library is not part of this model.
- Debug versus release builds: a failed length check is a precondition violation here, with no model of the unchecked release behaviour.
