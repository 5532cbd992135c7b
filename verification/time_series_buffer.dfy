/**
 * The sequential behaviour of `TimeSeriesBuffer<double, double>`: a store of
 * timestamped samples, the visible range last declared by `setRange`, the
 * preload factor, the stored loader callback, and the lifecycle of the one
 * background worker a buffer may own.
 *
 * Locks, the condition variable and the thread itself are not modelled. The
 * worker is a lifecycle value, and "the worker woke up and called the loader"
 * is the explicit event `Wake`. The callback type is a parameter `CB`; the
 * registry instantiates it with the loader closures it builds.
 */
module TimeSeriesBuffer {
  import opened Wrappers

  /** `double` in the source; exact reals here, so rounding is not modelled. */
  type Timestamp = real
  type Value = real

  datatype Sample = Sample(t: Timestamp, v: Value)

  /** Default argument of the constructor. */
  const DefaultPreloadFactor: real := 0.2

  /**
   * The background thread as seen from the buffer that holds its handle.
   * `Running` remembers the preload bounds the thread's closure captured when
   * it was created. `Stranded` is a handle whose thread still serves the
   * object it was created for (see `MoveConstruct`).
   */
  datatype Worker =
    | NotStarted
    | Running(capturedStart: Timestamp, capturedEnd: Timestamp)
    | Stranded

  datatype Buffer<CB> = Buffer(
    data: seq<Sample>,
    currentStart: Timestamp,
    currentEnd: Timestamp,
    preloadFactor: real,
    callback: Option<CB>,
    worker: Worker,
    stopRequested: bool)

  /** One call of the stored loader, made by the worker. */
  datatype Invocation<CB> = Invocation(loader: CB, start: Timestamp, end: Timestamp)

  /**
   * Both ends of the visible range padded by `factor` times its width: the
   * padded window has the same midpoint and `1 + 2 * factor` times the width.
   */
  function PreloadStart(start: Timestamp, end: Timestamp, factor: real): (r: Timestamp)
    ensures (start + end) / 2.0 - r == (1.0 + 2.0 * factor) * (end - start) / 2.0
  {
    start - (end - start) * factor
  }

  function PreloadEnd(start: Timestamp, end: Timestamp, factor: real): (r: Timestamp)
    ensures r - (start + end) / 2.0 == (1.0 + 2.0 * factor) * (end - start) / 2.0
  {
    end + (end - start) * factor
  }

  /** The eviction boundary, recomputed from the live range on every cleanup. */
  function RetentionStart<CB>(b: Buffer<CB>): (r: Timestamp)
    ensures 0.0 <= b.preloadFactor && b.currentStart <= b.currentEnd ==> r <= b.currentStart
    ensures b.currentStart == b.currentEnd ==> r == b.currentStart
    ensures b.currentStart < b.currentEnd && 0.0 < b.preloadFactor ==> r < b.currentStart
  {
    PreloadStart(b.currentStart, b.currentEnd, b.preloadFactor)
  }

  /** A worker is only ever started after a callback has been stored. */
  predicate WellFormed<CB>(b: Buffer<CB>) {
    b.worker.Running? ==> b.callback.Some?
  }

  lemma PaddedBoundsContainRange(start: Timestamp, end: Timestamp, factor: real)
    requires 0.0 <= factor && start <= end
    ensures PreloadStart(start, end, factor) <= start <= end <= PreloadEnd(start, end, factor)
  {
    assert (end - start) * factor >= 0.0;
  }

  /** Nothing rejects an inverted range: the padded bounds come out inverted too. */
  lemma InvertedRangeInvertsBounds(start: Timestamp, end: Timestamp, factor: real)
    requires 0.0 <= factor && end < start
    ensures PreloadEnd(start, end, factor) < PreloadStart(start, end, factor)
  {
    assert PreloadStart(start, end, factor) - PreloadEnd(start, end, factor)
        == (start - end) * (1.0 + 2.0 * factor);
  }

  // ---------------------------------------------------------------------------
  // Construction
  // ---------------------------------------------------------------------------

  function New<CB>(preloadFactor: real): (b: Buffer<CB>)
    ensures b.data == [] && b.callback == None && b.worker == NotStarted
    ensures b.preloadFactor == preloadFactor && !b.stopRequested
    ensures b.currentStart == 0.0 && b.currentEnd == 0.0
    ensures RetentionStart(b) == 0.0
    ensures WellFormed(b)
  {
    Buffer([], 0.0, 0.0, preloadFactor, None, NotStarted, false)
  }

  /** `TimeSeriesBuffer()`: the constructor with its default factor. */
  function Default<CB>(): (b: Buffer<CB>)
    ensures b.preloadFactor == 0.2
    ensures b.data == [] && b.callback == None && b.worker == NotStarted && !b.stopRequested
    ensures b.currentStart == 0.0 && b.currentEnd == 0.0
  {
    New(DefaultPreloadFactor)
  }

  /** With the default factor a buffer pads its range by a fifth of its width on each side. */
  lemma DefaultFactorPadsByOneFifth<CB>(start: Timestamp, end: Timestamp, loader: CB)
    ensures SetRange(Default<CB>(), start, end, loader).worker
         == Running(start - (end - start) / 5.0, end + (end - start) / 5.0)
    ensures RetentionStart(SetRange(Default<CB>(), start, end, loader)) == start - (end - start) / 5.0
  {
  }

  // ---------------------------------------------------------------------------
  // Eviction: `cleanup`, a stable `remove_if` against the retention boundary
  // ---------------------------------------------------------------------------

  /** The samples of `xs` that are not below `bound`, in their original order. */
  function Retain(xs: seq<Sample>, bound: Timestamp): (r: seq<Sample>)
    ensures |r| <= |xs|
    ensures forall i :: 0 <= i < |r| ==> bound <= r[i].t
  {
    if |xs| == 0 then []
    else
      var rest := Retain(xs[1..], bound);
      if xs[0].t < bound then rest else [xs[0]] + rest
  }

  /** Exactly the samples not below `bound` survive, each with its multiplicity. */
  lemma {:induction false} RetainCounts(xs: seq<Sample>, bound: Timestamp)
    ensures forall x :: multiset(Retain(xs, bound))[x] == if bound <= x.t then multiset(xs)[x] else 0
    decreases |xs|
  {
    if |xs| > 0 {
      RetainCounts(xs[1..], bound);
      assert xs == [xs[0]] + xs[1..];
    }
  }

  lemma {:induction false} RetainAppend(a: seq<Sample>, c: seq<Sample>, bound: Timestamp)
    ensures Retain(a + c, bound) == Retain(a, bound) + Retain(c, bound)
    decreases |a|
  {
    if |a| == 0 {
      assert a + c == c;
    } else {
      assert (a + c)[1..] == a[1..] + c;
      RetainAppend(a[1..], c, bound);
    }
  }

  lemma {:induction false} RetainKeepsAllAbove(xs: seq<Sample>, bound: Timestamp)
    requires forall i :: 0 <= i < |xs| ==> bound <= xs[i].t
    ensures Retain(xs, bound) == xs
    decreases |xs|
  {
    if |xs| > 0 {
      RetainKeepsAllAbove(xs[1..], bound);
    }
  }

  lemma RetainIdempotent(xs: seq<Sample>, bound: Timestamp)
    ensures Retain(Retain(xs, bound), bound) == Retain(xs, bound)
  {
    RetainKeepsAllAbove(Retain(xs, bound), bound);
  }

  /** Retaining a sequence extended by one sample decides that sample alone. */
  lemma RetainSnoc(xs: seq<Sample>, x: Sample, bound: Timestamp)
    ensures Retain(xs + [x], bound) == Retain(xs, bound) + (if x.t < bound then [] else [x])
  {
    RetainAppend(xs, [x], bound);
    assert [x][1..] == [];
  }

  /**
   * `std::remove_if` followed by `erase`: a forward scan that moves every
   * kept sample down to the write position, then truncates.
   */
  method RemoveIf(xs: seq<Sample>, bound: Timestamp) returns (r: seq<Sample>)
    ensures r == Retain(xs, bound)
  {
    var d := xs;
    var w := 0;
    for i := 0 to |xs|
      invariant |d| == |xs| && w <= i
      invariant forall j :: i <= j < |xs| ==> d[j] == xs[j]
      invariant d[..w] == Retain(xs[..i], bound)
    {
      ghost var kept := d[..w];
      RetainSnoc(xs[..i], xs[i], bound);
      assert xs[..i + 1] == xs[..i] + [xs[i]];
      if !(d[i].t < bound) {
        d := d[w := d[i]];
        w := w + 1;
        assert d[..w] == kept + [xs[i]];
      }
    }
    assert xs[..|xs|] == xs;
    r := d[..w];
  }

  function Cleanup<CB>(b: Buffer<CB>): (r: Buffer<CB>)
    ensures r.data == Retain(b.data, RetentionStart(b))
    ensures r == b.(data := r.data)
  {
    b.(data := Retain(b.data, RetentionStart(b)))
  }

  lemma CleanupIdempotent<CB>(b: Buffer<CB>)
    ensures Cleanup(Cleanup(b)) == Cleanup(b)
  {
    RetainIdempotent(b.data, RetentionStart(b));
  }

  // ---------------------------------------------------------------------------
  // The public operations
  // ---------------------------------------------------------------------------

  /** Replace the store wholesale; no eviction pass runs. */
  function Initialize<CB>(b: Buffer<CB>, initial: seq<Sample>): (r: Buffer<CB>)
    ensures r.data == initial
    ensures r == b.(data := initial)
    ensures WellFormed(b) ==> WellFormed(r)
  {
    b.(data := initial)
  }

  /**
   * Store the range and the callback. Only the first call, made while no
   * thread handle is held, starts a worker, and that worker keeps the padded
   * bounds of this call for good. The wake-up that `setRange` signals is the
   * separate event `Wake`.
   */
  function SetRange<CB>(b: Buffer<CB>, start: Timestamp, end: Timestamp, loader: CB): (r: Buffer<CB>)
    ensures r.currentStart == start && r.currentEnd == end
    ensures r.callback == Some(loader)
    ensures r.data == b.data && r.preloadFactor == b.preloadFactor
    ensures r.stopRequested == b.stopRequested
    ensures b.worker.NotStarted? ==>
      r.worker == Running(PreloadStart(start, end, b.preloadFactor), PreloadEnd(start, end, b.preloadFactor))
    ensures !b.worker.NotStarted? ==> r.worker == b.worker
    ensures RetentionStart(r) == PreloadStart(start, end, b.preloadFactor)
    ensures WellFormed(r)
  {
    var preloadStart := PreloadStart(start, end, b.preloadFactor);
    var preloadEnd := PreloadEnd(start, end, b.preloadFactor);
    var worker := if b.worker.NotStarted? then Running(preloadStart, preloadEnd) else b.worker;
    b.(currentStart := start, currentEnd := end, callback := Some(loader), worker := worker)
  }

  /**
   * The worker returns from its wait and calls the callback stored NOW with
   * the bounds it captured when it was created. A stopped loop has exited,
   * and a stranded thread never hears this buffer's signal.
   */
  function Wake<CB>(b: Buffer<CB>): (r: Option<Invocation<CB>>)
    ensures r.Some? <==> b.worker.Running? && b.callback.Some? && !b.stopRequested
    ensures r.Some? ==> r.value.loader == b.callback.value
    ensures r.Some? ==> r.value.start == b.worker.capturedStart && r.value.end == b.worker.capturedEnd
  {
    if b.worker.Running? && b.callback.Some? && !b.stopRequested then
      Some(Invocation(b.callback.value, b.worker.capturedStart, b.worker.capturedEnd))
    else
      None
  }

  /** Append the batch, then evict against the live range. */
  function AddData<CB>(b: Buffer<CB>, batch: seq<Sample>): (r: Buffer<CB>)
    ensures r.data == Retain(b.data + batch, RetentionStart(b))
    ensures |r.data| <= |b.data| + |batch|
    ensures RetentionStart(r) == RetentionStart(b)
    ensures forall i :: 0 <= i < |r.data| ==> RetentionStart(r) <= r.data[i].t
    ensures r == b.(data := r.data)
    ensures WellFormed(b) ==> WellFormed(r)
  {
    Cleanup(b.(data := b.data + batch))
  }

  /** A copy of the store. The model is pure, so reading leaves the buffer as it was. */
  function GetData<CB>(b: Buffer<CB>): (r: seq<Sample>)
    ensures |r| == |b.data| && forall i :: 0 <= i < |r| ==> r[i] == b.data[i]
  {
    b.data
  }

  lemma SnapshotAfterIngest<CB>(b: Buffer<CB>, batch: seq<Sample>)
    ensures GetData(AddData(b, batch)) == Retain(GetData(b) + batch, RetentionStart(b))
    ensures GetData(AddData(b, batch)) == Retain(GetData(b), RetentionStart(b)) + Retain(batch, RetentionStart(b))
  {
    RetainAppend(b.data, batch, RetentionStart(b));
  }

  lemma EmptyIngestIsOneCleanup<CB>(b: Buffer<CB>)
    ensures AddData(b, []) == Cleanup(b)
    ensures AddData(AddData(b, []), []) == AddData(b, [])
  {
    assert b.data + [] == b.data;
    var c := Cleanup(b);
    assert c.data + [] == c.data;
    CleanupIdempotent(b);
  }

  /** An empty ingest still evicts what a moved range has left behind. */
  lemma EmptyIngestEvictsAfterRangeMove<CB>(loader: CB)
    ensures var b := SetRange(AddData(Default<CB>(), [Sample(0.0, 1.0)]), 10.0, 20.0, loader);
            b.data == [Sample(0.0, 1.0)] && AddData(b, []).data == []
  {
    var s := Sample(0.0, 1.0);
    var a := AddData(Default<CB>(), [s]);
    assert [] + [s] == [s];
    assert Retain([s][1..], 0.0) == [];
    var b := SetRange(a, 10.0, 20.0, loader);
    assert RetentionStart(b) == 8.0;
    assert b.data + [] == [s];
    assert Retain([s][1..], 8.0) == [];
  }

  /** `initialize` bypasses eviction: it can hold what `addData` would drop. */
  lemma InitializeDoesNotEvict<CB>(loader: CB)
    ensures var b := SetRange(Default<CB>(), 10.0, 20.0, loader);
            Initialize(b, [Sample(0.0, 1.0)]).data == [Sample(0.0, 1.0)]
            && AddData(b, [Sample(0.0, 1.0)]).data == []
  {
    var s := Sample(0.0, 1.0);
    var b := SetRange(Default<CB>(), 10.0, 20.0, loader);
    assert b.data + [s] == [s];
    assert Retain([s][1..], 8.0) == [];
  }

  /** Before any range is set the boundary is 0: a fresh buffer drops exactly the negative timestamps. */
  lemma FreshBufferDropsNegatives<CB>(factor: real, batch: seq<Sample>)
    ensures AddData(New<CB>(factor), batch).data == Retain(batch, 0.0)
  {
    assert [] + batch == batch;
  }

  // ---------------------------------------------------------------------------
  // Move construction and move assignment
  // ---------------------------------------------------------------------------

  /** Destination and moved-from source after a move. */
  datatype Moved<CB> = Moved(target: Buffer<CB>, source: Buffer<CB>)

  /** What a thread handle becomes in the destination of a move, as written. */
  function Handover(w: Worker): Worker {
    if w.Running? then Stranded else w
  }

  /**
   * The move constructor as written. The destination takes the data, range,
   * factor, callback, thread handle and stop flag; the source keeps its range
   * and factor, loses the vector, callback and handle, and has its stop flag
   * set. The thread's closure captured the source's address, so its loop keeps
   * reading the source's stop flag, condition variable and callback.
   */
  function MoveConstruct<CB>(src: Buffer<CB>): (m: Moved<CB>)
    ensures m.target.data == src.data && m.target.callback == src.callback
    ensures m.target.currentStart == src.currentStart && m.target.currentEnd == src.currentEnd
    ensures m.target.preloadFactor == src.preloadFactor
    ensures m.target.stopRequested == src.stopRequested
    ensures src.worker.Running? ==> m.target.worker == Stranded
    ensures !src.worker.Running? ==> m.target.worker == src.worker
    ensures m.source == src.(data := [], callback := None, worker := NotStarted, stopRequested := true)
    ensures WellFormed(m.target) && WellFormed(m.source)
  {
    Moved(src.(worker := Handover(src.worker)),
          src.(data := [], callback := None, worker := NotStarted, stopRequested := true))
  }

  /**
   * Move assignment between distinct objects: the destination stops and joins
   * its own worker, then takes over exactly as the move constructor does.
   */
  function MoveAssign<CB>(dst: Buffer<CB>, src: Buffer<CB>): (m: Moved<CB>)
    ensures m == MoveConstruct(src)
  {
    Moved(src.(worker := Handover(src.worker)),
          src.(data := [], callback := None, worker := NotStarted, stopRequested := true))
  }

  /** The intended move: the destination's worker serves the destination. */
  function MoveConstructRebound<CB>(src: Buffer<CB>): (m: Moved<CB>)
    ensures m.target == src
    ensures m.source == MoveConstruct(src).source
  {
    Moved(src, src.(data := [], callback := None, worker := NotStarted, stopRequested := true))
  }

  /**
   * As written, a buffer moved while its worker runs never refills again:
   * the handle blocks a new worker, and the old one listens elsewhere.
   */
  lemma MovedWorkerNeverRefills<CB>(dst: Buffer<CB>, src: Buffer<CB>, start: Timestamp, end: Timestamp, loader: CB)
    requires src.worker.Running? && !src.stopRequested
    ensures Wake(SetRange(src, start, end, loader)).Some?
    ensures Wake(SetRange(MoveConstruct(src).target, start, end, loader)) == None
    ensures Wake(SetRange(MoveAssign(dst, src).target, start, end, loader)) == None
  {
  }

  /** With the worker rebound, a moved buffer refills exactly as the original would. */
  lemma ReboundWorkerKeepsRefilling<CB>(src: Buffer<CB>, start: Timestamp, end: Timestamp, loader: CB)
    requires src.worker.Running? && !src.stopRequested
    ensures Wake(SetRange(MoveConstructRebound(src).target, start, end, loader))
         == Some(Invocation(loader, src.worker.capturedStart, src.worker.capturedEnd))
  {
  }

  /** Without a started worker the two definitions agree. */
  lemma MovesAgreeWithoutWorker<CB>(src: Buffer<CB>)
    requires !src.worker.Running?
    ensures MoveConstruct(src) == MoveConstructRebound(src)
  {
  }

  // ---------------------------------------------------------------------------
  // Histories of calls
  // ---------------------------------------------------------------------------

  datatype Op<CB> =
    | SetRangeOp(start: Timestamp, end: Timestamp, loader: CB)
    | AddDataOp(batch: seq<Sample>)
    | InitializeOp(initial: seq<Sample>)

  function Step<CB>(b: Buffer<CB>, op: Op<CB>): Buffer<CB> {
    match op
    case SetRangeOp(s, e, l) => SetRange(b, s, e, l)
    case AddDataOp(xs) => AddData(b, xs)
    case InitializeOp(xs) => Initialize(b, xs)
  }

  /** The buffer after the calls `ops`, oldest first. */
  function Run<CB>(b: Buffer<CB>, ops: seq<Op<CB>>): (r: Buffer<CB>)
    ensures r.preloadFactor == b.preloadFactor && r.stopRequested == b.stopRequested
    ensures WellFormed(b) ==> WellFormed(r)
    decreases |ops|
  {
    if |ops| == 0 then b else Step(Run(b, ops[..|ops| - 1]), ops[|ops| - 1])
  }

  /** Every sample the calls hand to the buffer, in call order. */
  function Ingested<CB>(ops: seq<Op<CB>>): seq<Sample>
    decreases |ops|
  {
    if |ops| == 0 then []
    else
      var last := ops[|ops| - 1];
      Ingested(ops[..|ops| - 1]) + (if last.SetRangeOp? then [] else if last.AddDataOp? then last.batch else last.initial)
  }

  lemma {:induction false} RunAppend<CB>(b: Buffer<CB>, a: seq<Op<CB>>, c: seq<Op<CB>>)
    ensures Run(b, a + c) == Run(Run(b, a), c)
    decreases |c|
  {
    if |c| == 0 {
      assert a + c == a;
    } else {
      assert (a + c)[..|a + c| - 1] == a + c[..|c| - 1];
      RunAppend(b, a, c[..|c| - 1]);
    }
  }

  /** Calls other than `setRange` leave range, callback and worker alone. */
  lemma {:induction false} NoRangeCallKeepsControl<CB>(b: Buffer<CB>, ops: seq<Op<CB>>)
    requires forall j :: 0 <= j < |ops| ==> !ops[j].SetRangeOp?
    ensures Run(b, ops).worker == b.worker && Run(b, ops).callback == b.callback
    ensures Run(b, ops).currentStart == b.currentStart && Run(b, ops).currentEnd == b.currentEnd
    decreases |ops|
  {
    if |ops| > 0 {
      NoRangeCallKeepsControl(b, ops[..|ops| - 1]);
    }
  }

  /** Once a thread handle is held, no call replaces it: one worker per buffer. */
  lemma {:induction false} StartedWorkerPersists<CB>(b: Buffer<CB>, ops: seq<Op<CB>>)
    requires !b.worker.NotStarted?
    ensures Run(b, ops).worker == b.worker
    decreases |ops|
  {
    if |ops| > 0 {
      StartedWorkerPersists(b, ops[..|ops| - 1]);
    }
  }

  /** Running one call more is one more step. */
  lemma RunSnoc<CB>(b: Buffer<CB>, ops: seq<Op<CB>>, i: nat)
    requires i < |ops|
    ensures Run(b, ops[..i + 1]) == Step(Run(b, ops[..i]), ops[i])
  {
    assert ops[..i + 1][..i] == ops[..i];
  }

  /** Splitting a history after call `i`. */
  lemma RunSplit<CB>(b: Buffer<CB>, ops: seq<Op<CB>>, i: nat)
    requires i < |ops|
    ensures Run(b, ops) == Run(Run(b, ops[..i + 1]), ops[i + 1..])
  {
    RunAppend(b, ops[..i + 1], ops[i + 1..]);
    assert ops[..i + 1] + ops[i + 1..] == ops;
  }

  /** The first `setRange` of a history starts the worker, and it keeps that call's bounds to the end. */
  lemma FirstRangeFixesWorker<CB>(b: Buffer<CB>, ops: seq<Op<CB>>, i: nat)
    requires b.worker.NotStarted?
    requires i < |ops| && ops[i].SetRangeOp?
    requires forall j :: 0 <= j < i ==> !ops[j].SetRangeOp?
    ensures Run(b, ops).worker
         == Running(PreloadStart(ops[i].start, ops[i].end, b.preloadFactor), PreloadEnd(ops[i].start, ops[i].end, b.preloadFactor))
  {
    NoRangeCallKeepsControl(b, ops[..i]);
    RunSnoc(b, ops, i);
    var started := Run(b, ops[..i + 1]);
    assert started.worker
        == Running(PreloadStart(ops[i].start, ops[i].end, b.preloadFactor), PreloadEnd(ops[i].start, ops[i].end, b.preloadFactor));
    RunSplit(b, ops, i);
    StartedWorkerPersists(started, ops[i + 1..]);
  }

  /** The last `setRange` of a history decides the callback and the live range. */
  lemma LastRangeFixesControl<CB>(b: Buffer<CB>, ops: seq<Op<CB>>, k: nat)
    requires k < |ops| && ops[k].SetRangeOp?
    requires forall j :: k < j < |ops| ==> !ops[j].SetRangeOp?
    ensures Run(b, ops).callback == Some(ops[k].loader)
    ensures Run(b, ops).currentStart == ops[k].start && Run(b, ops).currentEnd == ops[k].end
  {
    var after := ops[k + 1..];
    assert forall j :: 0 <= j < |after| ==> !after[j].SetRangeOp? by {
      forall j | 0 <= j < |after| ensures !after[j].SetRangeOp? {
        assert after[j] == ops[k + 1 + j];
      }
    }
    RunSnoc(b, ops, k);
    RunSplit(b, ops, k);
    NoRangeCallKeepsControl(Run(b, ops[..k + 1]), after);
  }

  /**
   * The two sources of bounds. With `i` the first and `k` the last `setRange`
   * of a history on a buffer without a worker: the worker refills with the
   * bounds of call `i` through the loader of call `k`, while eviction uses
   * the padded start of call `k`.
   */
  lemma RefillBoundsAreFirstEvictionBoundIsLatest<CB>(b: Buffer<CB>, ops: seq<Op<CB>>, i: nat, k: nat)
    requires b.worker.NotStarted?
    requires i <= k < |ops| && ops[i].SetRangeOp? && ops[k].SetRangeOp?
    requires forall j :: 0 <= j < i ==> !ops[j].SetRangeOp?
    requires forall j :: k < j < |ops| ==> !ops[j].SetRangeOp?
    ensures Run(b, ops).worker
         == Running(PreloadStart(ops[i].start, ops[i].end, b.preloadFactor), PreloadEnd(ops[i].start, ops[i].end, b.preloadFactor))
    ensures Run(b, ops).callback == Some(ops[k].loader)
    ensures RetentionStart(Run(b, ops)) == PreloadStart(ops[k].start, ops[k].end, b.preloadFactor)
    ensures !b.stopRequested ==> Wake(Run(b, ops)) == Some(Invocation(ops[k].loader,
              PreloadStart(ops[i].start, ops[i].end, b.preloadFactor), PreloadEnd(ops[i].start, ops[i].end, b.preloadFactor)))
  {
    FirstRangeFixesWorker(b, ops, i);
    LastRangeFixesControl(b, ops, k);
  }

  /** A snapshot only ever holds ingested samples, each at most as often as it was ingested. */
  lemma {:induction false} SnapshotHoldsOnlyIngested<CB>(b: Buffer<CB>, ops: seq<Op<CB>>)
    ensures multiset(GetData(Run(b, ops))) <= multiset(b.data) + multiset(Ingested(ops))
    decreases |ops|
  {
    if |ops| > 0 {
      var prefix := ops[..|ops| - 1];
      SnapshotHoldsOnlyIngested(b, prefix);
      var p := Run(b, prefix);
      match ops[|ops| - 1]
      case SetRangeOp(s, e, l) =>
      case AddDataOp(xs) =>
        RetainCounts(p.data + xs, RetentionStart(p));
      case InitializeOp(xs) =>
    }
  }
}
