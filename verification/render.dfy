/**
 * The two pieces of the render layer that compute something: the
 * `ScrollingBuffer` ring buffer of the realtime demo, and the mapping from a
 * checkbox label to the function it plots.
 */
module Render {

  /** `ImVec2`; its `float` components are exact reals here. */
  datatype Point = Point(x: real, y: real)

  /** Default argument of the constructor. */
  const DefaultMaxSize: int := 200000

  /**
   * At most `maxSize` points. Once full, `offset` is the slot of the oldest
   * point, which the next point overwrites.
   */
  datatype ScrollingBuffer = ScrollingBuffer(maxSize: int, offset: int, data: seq<Point>)

  /**
   * What the constructor establishes for a positive capacity and every
   * operation keeps. With `MaxSize <= 0` the source's first `AddPoint`
   * indexes an empty vector and takes a remainder by zero.
   */
  predicate Valid(b: ScrollingBuffer) {
    && 0 < b.maxSize
    && 0 <= b.offset < b.maxSize
    && |b.data| <= b.maxSize
    && (|b.data| < b.maxSize ==> b.offset == 0)
  }

  function NewScrolling(maxSize: int): (b: ScrollingBuffer)
    ensures b.data == [] && b.offset == 0 && b.maxSize == maxSize
    ensures 0 < maxSize <==> Valid(b)
    ensures maxSize == DefaultMaxSize ==> Valid(b)
  {
    ScrollingBuffer(maxSize, 0, [])
  }

  function AddPoint(b: ScrollingBuffer, p: Point): (r: ScrollingBuffer)
    requires Valid(b)
    ensures Valid(r) && r.maxSize == b.maxSize
    ensures |b.data| < b.maxSize ==> r.data == b.data + [p] && r.offset == b.offset
    ensures |b.data| == b.maxSize ==>
      && |r.data| == b.maxSize
      && r.data[b.offset] == p
      && (forall i :: 0 <= i < |r.data| && i != b.offset ==> r.data[i] == b.data[i])
      && r.offset == (b.offset + 1) % b.maxSize
  {
    if |b.data| < b.maxSize then
      b.(data := b.data + [p])
    else
      b.(data := b.data[b.offset := p], offset := (b.offset + 1) % b.maxSize)
  }

  function Erase(b: ScrollingBuffer): (r: ScrollingBuffer)
    ensures |b.data| == 0 ==> r == b
  {
    if |b.data| > 0 then b.(data := [], offset := 0) else b
  }

  /** `Erase` brings a valid buffer back to its constructed state. */
  lemma EraseResets(b: ScrollingBuffer)
    requires Valid(b)
    ensures Erase(b) == NewScrolling(b.maxSize)
    ensures Erase(Erase(b)) == Erase(b)
  {
  }

  /** The points oldest first: from slot `offset` to the end, then the slots before it. */
  function Unrolled(b: ScrollingBuffer): seq<Point>
    requires Valid(b)
  {
    Rotate(b.data, b.offset)
  }

  /** `s` rotated left by `k` places, one place at a time. */
  function Rotate(s: seq<Point>, k: nat): (r: seq<Point>)
    requires k <= |s|
    ensures |r| == |s|
    decreases k
  {
    if k == 0 then s else Rotate(s[1..] + [s[0]], k - 1)
  }

  /** Rotating by `k` moves the first `k` elements, in order, behind the rest. */
  lemma {:induction false} RotateIsSlices(s: seq<Point>, k: nat)
    requires k <= |s|
    ensures Rotate(s, k) == s[k..] + s[..k]
    decreases k
  {
    if k > 0 {
      var t := s[1..] + [s[0]];
      RotateIsSlices(t, k - 1);
      assert t[k - 1..] == s[k..] + [s[0]];
      assert t[..k - 1] == s[1..k];
      assert s[..k] == [s[0]] + s[1..k];
    }
  }

  lemma ModOfSmall(a: int, n: int)
    requires 0 < n && 0 <= a < 2 * n
    ensures a % n == if a < n then a else a - n
  {
  }

  /**
   * The plot call reads `data.size()` points starting at index `offset`,
   * wrapping around: exactly the oldest-first order.
   */
  lemma UnrolledIsPlotRead(b: ScrollingBuffer)
    requires Valid(b)
    ensures |Unrolled(b)| == |b.data|
    ensures forall i :: 0 <= i < |b.data| ==> Unrolled(b)[i] == b.data[(b.offset + i) % |b.data|]
  {
    var n := |b.data|;
    RotateIsSlices(b.data, b.offset);
    forall i | 0 <= i < n ensures Unrolled(b)[i] == b.data[(b.offset + i) % n] {
      ModOfSmall(b.offset + i, n);
    }
  }

  /** Overwriting slot `o` and reading on from `o + 1` drops the old `d[o]` and ends with `p`. */
  lemma OverwriteSlices(d: seq<Point>, o: nat, p: Point)
    requires o < |d|
    ensures d[o := p][o + 1..] + d[o := p][..o + 1] == (d[o..] + d[..o])[1..] + [p]
  {
    var e := d[o := p];
    assert e[o + 1..] == d[o + 1..];
    assert e[..o + 1] == d[..o] + [p];
    assert (d[o..] + d[..o])[1..] == d[o + 1..] + d[..o];
  }

  /** When full, `AddPoint` replaces the oldest point by the newest in the read order. */
  lemma OverwriteUnrolled(b: ScrollingBuffer, p: Point)
    requires Valid(b) && |b.data| == b.maxSize
    ensures Unrolled(AddPoint(b, p)) == Unrolled(b)[1..] + [p]
  {
    var d, o := b.data, b.offset;
    var e := d[o := p];
    var k := if o + 1 < |d| then o + 1 else 0;
    ModOfSmall(o + 1, |d|);
    assert AddPoint(b, p) == ScrollingBuffer(b.maxSize, k, e);
    RotateIsSlices(d, o);
    RotateIsSlices(e, k);
    OverwriteSlices(d, o, p);
    if k == 0 {
      assert e[k..] + e[..k] == e[o + 1..] + e[..o + 1];
    }
  }

  /** One `AddPoint` appends to the read order, dropping the oldest point once full. */
  lemma AddPointUnrolled(b: ScrollingBuffer, p: Point)
    requires Valid(b)
    ensures |b.data| < b.maxSize ==> Unrolled(AddPoint(b, p)) == Unrolled(b) + [p]
    ensures |b.data| == b.maxSize ==> Unrolled(AddPoint(b, p)) == Unrolled(b)[1..] + [p]
  {
    if |b.data| < b.maxSize {
      var r := AddPoint(b, p);
      RotateIsSlices(b.data, b.offset);
      RotateIsSlices(r.data, r.offset);
      assert Unrolled(b) == b.data;
      assert Unrolled(r) == b.data + [p];
    } else {
      OverwriteUnrolled(b, p);
    }
  }

  function Min(a: int, b: int): int {
    if a < b then a else b
  }

  /** `AddPoint` for each of `ps` in turn. */
  function AddAll(b: ScrollingBuffer, ps: seq<Point>): (r: ScrollingBuffer)
    requires Valid(b)
    ensures Valid(r) && r.maxSize == b.maxSize
    ensures |r.data| == Min(|b.data| + |ps|, b.maxSize)
    decreases |ps|
  {
    if |ps| == 0 then b else AddPoint(AddAll(b, ps[..|ps| - 1]), ps[|ps| - 1])
  }

  /** If a buffer reads back the latest points of `front`, one more `AddPoint` keeps that true. */
  lemma LatestPointsStep(b: ScrollingBuffer, front: seq<Point>, p: Point)
    requires Valid(b) && |b.data| == Min(|front|, b.maxSize)
    requires Unrolled(b) == front[|front| - Min(|front|, b.maxSize)..]
    ensures Unrolled(AddPoint(b, p)) == (front + [p])[|front| + 1 - Min(|front| + 1, b.maxSize)..]
  {
    AddPointUnrolled(b, p);
    var m := b.maxSize;
    if |front| < m {
      assert front[|front| - Min(|front|, m)..] == front;
      assert (front + [p])[|front| + 1 - Min(|front| + 1, m)..] == front + [p];
    } else {
      var tail := front[|front| - m..];
      assert tail[1..] + [p] == (front + [p])[|front| + 1 - m..];
    }
  }

  /**
   * Reading from `Offset` with wrap-around yields the last `min(n, MaxSize)`
   * points added, oldest first.
   */
  lemma {:induction false} UnrolledIsLatestPoints(maxSize: int, ps: seq<Point>)
    requires 0 < maxSize
    ensures Unrolled(AddAll(NewScrolling(maxSize), ps)) == ps[|ps| - Min(|ps|, maxSize)..]
    decreases |ps|
  {
    var b0 := NewScrolling(maxSize);
    if |ps| == 0 {
      assert Unrolled(b0) == [];
    } else {
      var front := ps[..|ps| - 1];
      var p := ps[|ps| - 1];
      assert ps == front + [p];
      UnrolledIsLatestPoints(maxSize, front);
      var b := AddAll(b0, front);
      assert AddAll(b0, ps) == AddPoint(b, p);
      LatestPointsStep(b, front, p);
      assert |ps| == |front| + 1;
    }
  }

  // ---------------------------------------------------------------------------
  // functionNameMapping
  // ---------------------------------------------------------------------------

  /** `WindowClass::Function`. */
  datatype Function = NONE | SIN | COS

  function FunctionNameMapping(name: string): (f: Function)
    ensures f == SIN <==> name == "sin(x)"
    ensures f == COS <==> name == "cos(x)"
    ensures f == NONE <==> name != "sin(x)" && name != "cos(x)"
  {
    if name == "sin(x)" then SIN
    else if name == "cos(x)" then COS
    else NONE
  }
}
