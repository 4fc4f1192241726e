// What a client of a Range can conclude from the contracts alone.

module RangeClient {
  import opened Pipes
  import opened IteratorRange

  /** A view of the whole of [10, 20, 30, 40, 50]: reads, and a write
      through the view seen in the array. */
  method WriteThroughScenario() {
    var c := new int[5];
    c[0], c[1], c[2], c[3], c[4] := 10, 20, 30, 40, 50;
    var v := new Range.FromContainer(c);
    assert v.Length() == 5;
    assert v.Value(2) == 30;
    v.SetValue(2, 99);
    assert c[2] == 99 && c[1] == 20 && c[3] == 40;
  }

  /** Resizing to the current length, twice, changes nothing. */
  method ResizeScenario(c: array<int>) {
    var v := new Range.FromContainer(c);
    var n1 := v.Resize(c.Length);
    var n2 := v.Resize(n1);
    assert n1 == n2 == c.Length;
  }

  /** A refill of the whole container from a producer of five elements. */
  method PipeScenario() {
    var c := new int[5];
    var v := new Range.FromContainer(c);
    var src := new Pipe([1, 2, 3, 4, 5]);
    AssignFromPipe(v, src);
    assert c[..] == [1, 2, 3, 4, 5];
    FillTraceBracketed(5);
    assert src.log[0] == ReadBegun && src.log[6] == ReadEnded;
  }

  /** Rebinding twice leaves only the second binding. */
  method RebindScenario(c: array<int>, d: array<int>) {
    var v := new Range.FromContainer(c);
    v.Assign(d);
    v.Assign(c);
    assert v.Length() == c.Length && v.Host() == c && v.Contents() == c[..];
  }

  /** Filling an empty view pulls nothing. */
  method EmptyScenario() {
    var e := new Range<int>();
    var none := new Pipe<int>([]);
    AssignFromPipe(e, none);
    assert none.log == [ReadBegun, ReadEnded];
  }

  /** A view of the middle three cells: a fill changes those and no other. */
  method MiddleScenario() {
    var c := new int[5];
    c[0], c[1], c[2], c[3], c[4] := 10, 20, 30, 40, 50;
    var v := ToRange(Iter(c, 1), Iter(c, 4));
    assert v.Length() == 3 && v.Value(0) == 20;
    var src := new Pipe([7, 8, 9]);
    ShiftIn(v, src);
    assert c[..] == [10, 7, 8, 9, 50];
  }

  /** Two views of one array share its storage: a write through one is
      read back through the other. */
  method AliasScenario(c: array<int>)
    requires c.Length == 5
    modifies c
  {
    var whole := new Range.FromContainer(c);
    var middle := ToRange(Iter(c, 1), Iter(c, 4));
    middle.SetValue(0, 5);
    assert whole.Value(1) == 5;
  }

  /** Rebinding a view of the whole array to a view of its middle. */
  method RebindToViewScenario(c: array<int>)
    requires c.Length == 5
  {
    var whole := new Range.FromContainer(c);
    var middle := ToRange(Iter(c, 1), Iter(c, 4));
    whole.AssignView(middle);
    assert whole.Length() == 3 && whole.Begin() == Iter(c, 1);
    assert whole.Value(0) == c[1];
  }

  /** A `Range` object is shared by reference: a second name for it follows
      every rebinding, while a copy made from its iterators keeps its own. */
  method CopyScenario(c: array<int>, d: array<int>) {
    var v := new Range.FromContainer(c);
    var alias := v;
    var copy := ToRange(v.Begin(), v.End());
    v.Assign(d);
    assert alias.Host() == d;
    assert copy.Host() == c && copy.Length() == c.Length;
  }
}
