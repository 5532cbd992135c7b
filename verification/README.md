# Plotter cores in Dafny

A model of the three sequential cores of the Plotter demo, with proofs about them:

- **`TimeSeriesBuffer<double, double>`** (module `TimeSeriesBuffer`). A buffer holds a store of `(timestamp, value)` samples, the visible range `current_start_`/`current_end_`, a preload factor (0.2 by default), the stored preload callback and a handle to at most one background worker. `setRange` stores the range and the callback. It pads the range by `(end - start) * factor` on both sides and starts the worker on the first call only. That worker keeps the padded bounds of that first call. `addData` appends a batch and then runs `cleanup`, a stable `remove_if` that drops every sample below the retention boundary. The boundary is recomputed from the live range each time. `initialize` replaces the store wholesale. `getData` returns the store. The move constructor and move assignment hand the state to the destination and set the moved-from buffer's stop flag. The worker is the value `Worker` (`NotStarted | Running(capturedStart, capturedEnd) | Stranded`). "The worker woke and called the loader" is the explicit event `Wake`. It passes the callback stored *now* together with the bounds captured *at start*. So the model keeps the source's two sources of bounds: eviction uses the live range, refill uses the frozen one.
- **`DataManager`** (module `DataManager`). A `map` from sensor id to buffer. `addSensor` maps an id to a fresh default buffer and replaces any old one. `updateSensorRange` and `addSensorData` ignore unknown ids. The loader passed to `setRange` is `PreloadFor(id)`: it re-enters `preloadData` for the same id. `preloadData` builds samples at `start, start + 1, …` while `t <= end` and routes them through `addSensorData`. `Refill` is one wake of a sensor's worker, with the loader interpreted.
- **`ScrollingBuffer` and `functionNameMapping`** (module `Render`). A ring buffer of at most `MaxSize` points. It appends while not full and then overwrites slot `Offset`, advancing `Offset` modulo `MaxSize`. `Erase` empties it. Reading `Data` from `Offset` with wrap-around, as the plot call does, gives the latest `min(n, MaxSize)` points, oldest first. The mapping sends `"sin(x)"` to `SIN`, `"cos(x)"` to `COS` and every other label to `NONE`.

`Timestamp`, `Value` and the preload factor are `double` in the source and exact `real`s here. `std::sin` is the parameter `wave: real -> real`. Every operation is a pure function on immutable values. `getData` therefore cannot change state, and two reads with nothing in between are equal by construction.

## Model

| member | source | states |
|---|---|---|
| `TimeSeriesBuffer.PreloadStart` | Plotter/src/TimeSeriesBuffer.cpp:61 | the padded start lies `(1 + 2 * factor) * width / 2` below the midpoint of the visible range |
| `TimeSeriesBuffer.PreloadEnd` | Plotter/src/TimeSeriesBuffer.cpp:62 | the padded end lies `(1 + 2 * factor) * width / 2` above the same midpoint, so the padded window is the visible one widened symmetrically |
| `TimeSeriesBuffer.RetentionStart` | Plotter/src/TimeSeriesBuffer.cpp:95 | the eviction boundary, computed from the live range, never cuts into a non-inverted visible range when the factor is non-negative. It lies strictly below the range start when the range has width and the factor is positive, and equals the start for an empty range |
| `TimeSeriesBuffer.PaddedBoundsContainRange` | Plotter/src/TimeSeriesBuffer.cpp:61-62 | with a non-negative factor and `start <= end`: `preloadStart <= start <= end <= preloadEnd` |
| `TimeSeriesBuffer.InvertedRangeInvertsBounds` | Plotter/src/TimeSeriesBuffer.cpp:61-62 | nothing rejects `end < start`: with a non-negative factor the padded bounds come out inverted, `preloadEnd < preloadStart` |
| `TimeSeriesBuffer.New` | Plotter/src/TimeSeriesBuffer.hpp:31-32 | a fresh buffer has an empty store, range `(0, 0)`, no callback, no worker and a clear stop flag, so its retention boundary is 0 |
| `TimeSeriesBuffer.Default` | Plotter/src/TimeSeriesBuffer.hpp:12 | `TimeSeriesBuffer()` has factor 0.2, an empty store, range `(0, 0)`, no callback, no worker and a clear stop flag |
| `TimeSeriesBuffer.DefaultFactorPadsByOneFifth` | Plotter/src/TimeSeriesBuffer.hpp:12 | with the default factor 0.2, the first `setRange` pads by a fifth of the width on each side, for both the worker's bounds and the eviction boundary |
| `TimeSeriesBuffer.Retain` | Plotter/src/TimeSeriesBuffer.cpp:94-100 | the cleanup filter never grows the store and keeps only samples whose timestamp is not below the boundary |
| `TimeSeriesBuffer.RetainCounts` | Plotter/src/TimeSeriesBuffer.cpp:96-99 | the filter keeps exactly the samples not below the boundary, each as many times as it occurred, and none of the others |
| `TimeSeriesBuffer.RetainAppend` | Plotter/src/TimeSeriesBuffer.cpp:96-99 | the filter is stable: filtering `a ++ c` is filtering `a` followed by filtering `c` |
| `TimeSeriesBuffer.RetainIdempotent` | Plotter/src/TimeSeriesBuffer.cpp:96-99 | filtering twice against the same boundary is filtering once |
| `TimeSeriesBuffer.RemoveIf` | Plotter/src/TimeSeriesBuffer.cpp:96-99 | the in-place `remove_if` compaction followed by `erase` yields exactly the stable filter |
| `TimeSeriesBuffer.Cleanup` | Plotter/src/TimeSeriesBuffer.cpp:94-100 | cleanup filters the store against the boundary computed from the live range and factor, and changes nothing else |
| `TimeSeriesBuffer.CleanupIdempotent` | Plotter/src/TimeSeriesBuffer.cpp:94-100 | a second cleanup with no range change removes nothing more |
| `TimeSeriesBuffer.Initialize` | Plotter/src/TimeSeriesBuffer.cpp:50-53 | the store becomes exactly the given samples, and range, callback, worker and factor are untouched |
| `TimeSeriesBuffer.InitializeDoesNotEvict` | Plotter/src/TimeSeriesBuffer.cpp:50-53 | no eviction: `initialize` keeps a sample below the boundary that `addData` of the same sample drops |
| `TimeSeriesBuffer.SetRange` | Plotter/src/TimeSeriesBuffer.cpp:56-78 | stores the range and replaces the callback. It leaves store, factor and stop flag alone. It starts a worker with the padded bounds only when none exists and otherwise keeps the existing one. The eviction boundary becomes the padded start |
| `TimeSeriesBuffer.Wake` | Plotter/src/TimeSeriesBuffer.cpp:67-74 | a wake calls the loader iff a running worker, a stored callback and a clear stop flag exist. The call passes the currently stored callback and the bounds captured when the worker started |
| `TimeSeriesBuffer.AddData` | Plotter/src/TimeSeriesBuffer.cpp:81-85 | the new store is the stable filter of `old ++ batch` against the live boundary and holds at most `|old| + |batch|` samples. Every retained sample is at or above the boundary. Only the store changes |
| `TimeSeriesBuffer.GetData` | Plotter/src/TimeSeriesBuffer.cpp:88-91 | the returned copy has the store's samples, position by position, in stored order |
| `TimeSeriesBuffer.SnapshotAfterIngest` | Plotter/src/TimeSeriesBuffer.cpp:88-91 | the copy `getData` returns after `addData(batch)` is the filtered old snapshot followed by the filtered batch |
| `TimeSeriesBuffer.EmptyIngestIsOneCleanup` | Plotter/src/TimeSeriesBuffer.cpp:81-85 | `addData([])` is exactly one cleanup, and a second `addData([])` changes nothing |
| `TimeSeriesBuffer.EmptyIngestEvictsAfterRangeMove` | Plotter/src/TimeSeriesBuffer.cpp:81-85 | `setRange` alone evicts nothing, but a following `addData([])` evicts a sample the moved range no longer retains |
| `TimeSeriesBuffer.FreshBufferDropsNegatives` | Plotter/src/TimeSeriesBuffer.hpp:32 | before any `setRange` the boundary is 0, so `addData` on a fresh buffer keeps exactly the non-negative samples, in order |
| `TimeSeriesBuffer.MoveConstruct` | Plotter/src/TimeSeriesBuffer.cpp:6-15 | the destination gets the source's data, range, factor, callback and stop flag. As written, a running worker becomes `Stranded` in the destination, and any other worker state is handed over unchanged. The moved-from source keeps its range and factor, and ends with an empty store, no callback, no handle and its stop flag set |
| `TimeSeriesBuffer.MoveAssign` | Plotter/src/TimeSeriesBuffer.cpp:18-35 | between distinct objects, the destination's own worker is stopped and the result is exactly that of the move constructor |
| `TimeSeriesBuffer.MoveConstructRebound` | Plotter/src/TimeSeriesBuffer.cpp:6-15 | the intended move: the destination equals the source as it was, worker included. The moved-from side is as in `MoveConstruct` |
| `TimeSeriesBuffer.MovedWorkerNeverRefills` | Plotter/src/TimeSeriesBuffer.cpp:6-35 | as written, take a buffer whose worker runs. Before the move, `setRange` plus a wake calls the loader. After move construction, or move assignment into any destination, no `setRange` on the destination leads to a loader call |
| `TimeSeriesBuffer.ReboundWorkerKeepsRefilling` | Plotter/src/TimeSeriesBuffer.cpp:6-15 | with the rebound move, `setRange` on the destination and a wake call the new loader with the bounds captured before the move |
| `TimeSeriesBuffer.MovesAgreeWithoutWorker` | Plotter/src/TimeSeriesBuffer.cpp:6-15 | a source without a running worker moves the same way under both definitions |
| `TimeSeriesBuffer.Run` | Plotter/src/TimeSeriesBuffer.cpp:50-85 | no sequence of `initialize`, `setRange` and `addData` calls changes the preload factor or the stop flag, or breaks "a running worker has a callback" |
| `TimeSeriesBuffer.NoRangeCallKeepsControl` | Plotter/src/TimeSeriesBuffer.cpp:50-85 | calls other than `setRange` leave the range, callback and worker as they were |
| `TimeSeriesBuffer.StartedWorkerPersists` | Plotter/src/TimeSeriesBuffer.cpp:66-76 | once a worker handle is held, no sequence of calls replaces it: at most one worker per buffer |
| `TimeSeriesBuffer.RefillBoundsAreFirstEvictionBoundIsLatest` | Plotter/src/TimeSeriesBuffer.cpp:56-99 | across any history, take the first and the last `setRange`. The worker holds the first call's padded bounds. The callback is the last call's. Eviction uses the last call's padded start. A wake calls the last loader with the first bounds |
| `TimeSeriesBuffer.SnapshotHoldsOnlyIngested` | Plotter/src/TimeSeriesBuffer.cpp:81-99 | after any history, every sample in the snapshot was in the initial store or handed in, and no sample occurs more often than it was supplied |
| `DataManager.AddSensor` | Plotter/src/DataManager.cpp:4-6 | `id` maps to a fresh buffer with the default factor 0.2, replacing any old one. Every other entry is unchanged. The registry invariant is kept |
| `DataManager.AddSensorIsMoveAssignOfFresh` | Plotter/src/DataManager.cpp:5 | the new entry is what move-assigning a default temporary yields, under both move definitions |
| `DataManager.UpdateSensorRange` | Plotter/src/DataManager.cpp:9-17 | an unknown id leaves the whole map unchanged. A known id gets `setRange(start, end, PreloadFor(id))` and every other entry is unchanged |
| `DataManager.AddSensorData` | Plotter/src/DataManager.cpp:20-24 | an unknown id leaves the whole map unchanged. A known id gets that buffer's `addData(batch)` and every other entry is unchanged |
| `DataManager.StepCount` | Plotter/src/DataManager.cpp:29 | the loop runs exactly as many unit steps as stay at or below `end`: the last step taken is `<= end`, the next is beyond it |
| `DataManager.PreloadBatch` | Plotter/src/DataManager.cpp:28-31 | the batch is empty iff `start > end`. Otherwise it starts at `start` and rises by exactly 1. Every timestamp lies in `[start, end]`, the next step would pass `end`, and every value is `wave(t)` |
| `DataManager.BatchStepsFromStart` | Plotter/src/DataManager.cpp:29 | the `i`-th sample of the batch has timestamp `start + i` |
| `DataManager.GeneratePreloadBatch` | Plotter/src/DataManager.cpp:28-31 | the `for (t = start; t <= end; t += 1.0)` loop builds exactly the batch above |
| `DataManager.PreloadData` | Plotter/src/DataManager.cpp:26-33 | `preloadData` routes the generated batch through `addSensorData` for the same id. The registry invariant is kept |
| `DataManager.Refill` | Plotter/src/DataManager.cpp:13-15 | one wake of `id`'s worker (Plotter/src/TimeSeriesBuffer.cpp:73). With an unknown id, or a worker that does not call, the registry is unchanged. Otherwise the stored loader preloads the sensor it names, with the worker's captured bounds. In a coherent registry that is `id`'s own buffer, every other entry is unchanged, and coherence is kept |
| `DataManager.PreloadOnFreshSensor` | Plotter/src/AppController.cpp:7-9 | `addSensor` then `preloadData(id, 0, 100)` leaves exactly 101 samples with timestamps 0, 1, …, 100 |
| `DataManager.RangeThenRefillOnFreshSensor` | Plotter/src/DataManager.cpp:10-15 | `addSensor`, `updateSensorRange(id, 0, 100)`, one wake: the worker's bounds are `(-20, 120)`, the boundary is -20, and the buffer holds the 141 samples at -20, …, 120 |
| `Render.NewScrolling` | Plotter/src/render.cpp:97-101 | a new ring buffer is empty with `Offset = 0`. It is usable (satisfies the invariant) iff `MaxSize > 0`, and so with the default capacity 200000 |
| `Render.AddPoint` | Plotter/src/render.cpp:102-109 | below capacity the point is appended and `Offset` is unchanged. When full, slot `Offset` is overwritten, the other slots are untouched, the size stays `MaxSize` and `Offset` advances modulo `MaxSize`. The size never exceeds `MaxSize` and `Offset` stays in `[0, MaxSize)` |
| `Render.Erase` | Plotter/src/render.cpp:110-115 | on an empty buffer `Erase` changes nothing |
| `Render.EraseResets` | Plotter/src/render.cpp:110-115 | on a valid buffer `Erase` restores the constructed state (empty, `Offset = 0`), and erasing again changes nothing |
| `Render.UnrolledIsPlotRead` | Plotter/src/render.cpp:166-167 | the plot call reads `Data.size()` points from index `Offset` with wrap-around. Position `i` of that read is position `i` of the oldest-first order, the data rotated left by `Offset` |
| `Render.OverwriteUnrolled` | Plotter/src/render.cpp:105-108 | when full, overwriting slot `Offset` and advancing it drops the oldest point from the oldest-first order and appends the new one |
| `Render.AddPointUnrolled` | Plotter/src/render.cpp:102-109 | each `AddPoint` appends the point to the oldest-first order, dropping the oldest point once full |
| `Render.LatestPointsStep` | Plotter/src/render.cpp:102-109 | if a buffer reads back the latest `min(n, MaxSize)` points of a sequence, it still does so after one more `AddPoint` |
| `Render.AddAll` | Plotter/src/render.cpp:102-109 | after `n` points on a valid buffer, the size is `min(size + n, MaxSize)` and the invariant still holds |
| `Render.UnrolledIsLatestPoints` | Plotter/src/render.cpp:102-108 | after `n` points are added to a new buffer, the oldest-first order is exactly the last `min(n, MaxSize)` of them, in insertion order. By `UnrolledIsPlotRead`, this is what the plot call reads |
| `Render.FunctionNameMapping` | Plotter/src/render.cpp:250-260 | `SIN` iff the label is `"sin(x)"`, `COS` iff it is `"cos(x)"`, `NONE` iff it is neither |

## Left out

- Threads, both mutexes, the condition variable and `join` (Plotter/src/TimeSeriesBuffer.cpp:20-23, 42-47, 66-77). Each operation is one atomic step, and the worker's wake-up is the separate event `Wake`. So concurrent interleavings and lock ordering are not modelled.
- The unsynchronised read of the stop flag and the predicate-less `wait` (Plotter/src/TimeSeriesBuffer.cpp:68-71). These are concurrency hazards. A spurious wake-up gives an extra loader call. A notify sent before the new worker waits, as on the first `setRange`, is lost.
- `TimeSeriesBuffer.MoveAssign`: the model assumes that `join` returns. In the source, a started worker sits in the predicate-less `wait` (Plotter/src/TimeSeriesBuffer.cpp:71). Move assignment sets the stop flag and joins without notifying (Plotter/src/TimeSeriesBuffer.cpp:20-22), so `operator=` does not return unless a spurious wake-up occurs. The destructor (Plotter/src/TimeSeriesBuffer.cpp:42-47) hangs the same way.
- `DataManager.AddSensor`: the model returns the registry with a fresh entry. In the source, `addSensor` on an id that has already had `updateSensorRange` move-assigns into a buffer whose worker waits (Plotter/src/DataManager.cpp:5), and by the line above it blocks forever, barring a spurious wake-up.
- `TimeSeriesBuffer.SetRange`: the loader is always a callable value. The source accepts an empty `std::function` (Plotter/src/TimeSeriesBuffer.cpp:56, 64). Its worker's call at Plotter/src/TimeSeriesBuffer.cpp:73 then throws `std::bad_function_call` on the worker thread, which ends in `std::terminate`. A single `setRange` with an empty callback reaches that state. The registry always passes a non-empty closure (Plotter/src/DataManager.cpp:13-15).
- `TimeSeriesBuffer.Wake`: when a running worker has no callback, the source calls an empty `std::function`, which throws. The model returns `None` instead. Because `SetRange` always stores a callback, `WellFormed` holds for every modelled history, but it does not hold for the source's empty-callback case above.
- `Render.AddPoint`: requires a positive `MaxSize`. The source accepts `MaxSize <= 0`. Its first `AddPoint` then writes `Data[Offset]` into an empty `ImVector` (Plotter/src/render.cpp:106) and takes `% MaxSize` by zero or a negative number (Plotter/src/render.cpp:107). Both are undefined behaviour, so the model states nothing for them.
- What a `Stranded` thread still does to the moved-from object: it would answer a later `setRange` on that object. A moved-from object is only ever destroyed.
- The moved-from vector and `std::function` are modelled as empty. The vector's move constructor guarantees this. For the callback and for move assignment, the language leaves the value valid but unspecified.
- Self move-assignment (`this == &other`, Plotter/src/TimeSeriesBuffer.cpp:19) is a no-op. A value model has no object identity, so `MoveAssign` covers distinct objects only.
- Floating point. `double`/`float` rounding is not modelled. This includes accumulating `t += 1.0` (which for huge magnitudes stops advancing the loop), NaN comparisons, and narrowing `AddPoint`'s `double x` to `float`.
- `std::sin` and `std::cos` are uninterpreted: the parameter `wave`. For the same reason `evaluateFunction` (Plotter/src/render.cpp:262-280) is left out: it only dispatches to them.
- `RollingBuffer` (Plotter/src/render.cpp:119-132), whose behaviour rests on `fmodf` over floats.
- All drawing and widgets: `Draw`, `DrawSelection`, `DrawPlot` and the plotting half of `Demo_RealtimePlots` in Plotter/src/render.cpp, all of Plotter/src/GraphView.cpp, and `AppController::run` beyond the scenario lemma `PreloadOnFreshSensor`.
- `TestingPlot` (Plotter/src/render.cpp:180-248, Plotter/src/GraphView.cpp:32-79) reads the wall clock. Its trim test `t.front() - t.back() > max_time_range` never fires for ascending timestamps.
- `ImVector` capacity (`reserve`) has no observable effect. `int` widths are not a concern for the ring buffer because `Offset + 1 <= MaxSize`.
- render.hpp is not part of this model. The constructor order of `Function` (`NONE | SIN | COS`) is therefore assumed, and nothing depends on it.

## Findings

| source | as written | input that shows it | evidently intended | confidence | as-written member | corrected member |
|---|---|---|---|---|---|---|
| Plotter/src/TimeSeriesBuffer.cpp:6-15 | The worker's closure captured the source's `this`. The move hands the thread handle to the destination, but the thread loop keeps reading the moved-from object's stop flag (now set), condition variable and callback. Move assignment (lines 18-35) does the same | call `setRange` once so the worker starts, then move-construct or move-assign the buffer and call `setRange` on the destination. The handle is joinable, so no new worker starts, and the destination's notify reaches no waiting thread. The destination is never refilled | the destination's worker keeps refilling through the destination's callback with its captured bounds | not executed; high | `TimeSeriesBuffer.MovedWorkerNeverRefills` | `TimeSeriesBuffer.ReboundWorkerKeepsRefilling` |

The registry only move-assigns fresh temporaries, which own no worker. There the two move definitions agree (`TimeSeriesBuffer.MovesAgreeWithoutWorker`, `DataManager.AddSensorIsMoveAssignOfFresh`).
