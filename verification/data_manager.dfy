/**
 * `DataManager`: a registry from sensor id to one `TimeSeriesBuffer` each.
 * Calls for unknown ids are ignored. The loader a buffer receives from
 * `updateSensorRange` re-enters `preloadData` for the same id; it is
 * represented by the id it closes over. Sample values come from `std::sin`,
 * which is the parameter `wave` here.
 */
module DataManager {
  import opened Wrappers
  import opened TimeSeriesBuffer

  type SensorId = string

  /** The closure `updateSensorRange` hands to `setRange`. */
  datatype Loader = PreloadFor(sensorId: SensorId)

  type Registry = map<SensorId, Buffer<Loader>>

  /** Every stored loader targets its own sensor, and every buffer is well formed. */
  predicate Coherent(m: Registry) {
    forall id :: id in m ==> WellFormed(m[id]) && (m[id].callback.Some? ==> m[id].callback.value == PreloadFor(id))
  }

  /** Map `id` to a fresh default buffer, replacing any buffer it had. */
  function AddSensor(m: Registry, id: SensorId): (r: Registry)
    ensures r.Keys == m.Keys + {id}
    ensures r[id] == New(DefaultPreloadFactor)
    ensures forall k :: k in m && k != id ==> r[k] == m[k]
    ensures Coherent(m) ==> Coherent(r)
  {
    m[id := Default()]
  }

  /**
   * `buffers_[id] = TimeSeriesBuffer()` move-assigns a temporary that owns no
   * worker, so the entry ends up equal to the temporary under either move.
   */
  lemma AddSensorIsMoveAssignOfFresh(m: Registry, id: SensorId)
    ensures AddSensor(m, id)[id] == MoveAssign(if id in m then m[id] else Default(), Default<Loader>()).target
    ensures AddSensor(m, id)[id] == MoveConstructRebound(Default<Loader>()).target
  {
  }

  function UpdateSensorRange(m: Registry, id: SensorId, start: Timestamp, end: Timestamp): (r: Registry)
    ensures r.Keys == m.Keys
    ensures id !in m ==> r == m
    ensures id in m ==> r[id] == SetRange(m[id], start, end, PreloadFor(id))
    ensures forall k :: k in m && k != id ==> r[k] == m[k]
    ensures Coherent(m) ==> Coherent(r)
  {
    if id in m then m[id := SetRange(m[id], start, end, PreloadFor(id))] else m
  }

  function AddSensorData(m: Registry, id: SensorId, batch: seq<Sample>): (r: Registry)
    ensures r.Keys == m.Keys
    ensures id !in m ==> r == m
    ensures id in m ==> r[id] == AddData(m[id], batch)
    ensures forall k :: k in m && k != id ==> r[k] == m[k]
    ensures Coherent(m) ==> Coherent(r)
  {
    if id in m then m[id := AddData(m[id], batch)] else m
  }

  // ---------------------------------------------------------------------------
  // preloadData: samples at unit steps from start while not beyond end
  // ---------------------------------------------------------------------------

  /** How many unit steps from `start` stay at or below `end`: the last kept one does, the next does not. */
  function StepCount(start: Timestamp, end: Timestamp): (n: nat)
    ensures n > 0 ==> start + (n - 1) as real <= end
    ensures end < start + n as real
  {
    if end < start then 0 else (end - start).Floor + 1
  }

  /** The batch `preloadData` builds: `(t, wave(t))` for `t = start, start + 1, ...` while `t <= end`. */
  function PreloadBatch(start: Timestamp, end: Timestamp, wave: real -> real): (batch: seq<Sample>)
    ensures |batch| == 0 <==> end < start
    ensures forall i :: 0 <= i < |batch| ==> start <= batch[i].t <= end && batch[i].v == wave(batch[i].t)
    ensures forall i :: 0 < i < |batch| ==> batch[i].t == batch[i - 1].t + 1.0
    ensures |batch| > 0 ==> batch[0].t == start && end < batch[|batch| - 1].t + 1.0
  {
    var n := StepCount(start, end);
    seq(n, i requires 0 <= i < n => Sample(start + i as real, wave(start + i as real)))
  }

  /** The generating loop of `preloadData`, step by step. */
  method GeneratePreloadBatch(start: Timestamp, end: Timestamp, wave: real -> real) returns (batch: seq<Sample>)
    ensures batch == PreloadBatch(start, end, wave)
  {
    ghost var full := PreloadBatch(start, end, wave);
    batch := [];
    var t := start;
    while t <= end
      invariant t == start + |batch| as real
      invariant |batch| <= |full| && batch == full[..|batch|]
      decreases if t <= end then (end - t).Floor + 1 else 0
    {
      assert |batch| < |full|;
      batch := batch + [Sample(t, wave(t))];
      t := t + 1.0;
    }
    assert |batch| == |full|;
  }

  function PreloadData(m: Registry, id: SensorId, start: Timestamp, end: Timestamp, wave: real -> real): (r: Registry)
    ensures r == AddSensorData(m, id, PreloadBatch(start, end, wave))
    ensures Coherent(m) ==> Coherent(r)
  {
    AddSensorData(m, id, PreloadBatch(start, end, wave))
  }

  /**
   * The worker of `id` wakes and runs the loader stored in its buffer now,
   * with the bounds the worker captured when it started. The loader preloads
   * the sensor it names. In a coherent registry that is `id` itself.
   */
  function Refill(m: Registry, id: SensorId, wave: real -> real): (r: Registry)
    ensures r.Keys == m.Keys
    ensures id !in m || Wake(m[id]).None? ==> r == m
    ensures id in m && Wake(m[id]).Some? ==>
      r == AddSensorData(m, m[id].callback.value.sensorId,
                         PreloadBatch(m[id].worker.capturedStart, m[id].worker.capturedEnd, wave))
    ensures Coherent(m) && id in m && Wake(m[id]).Some? ==>
      && r[id] == AddData(m[id], PreloadBatch(m[id].worker.capturedStart, m[id].worker.capturedEnd, wave))
      && forall k :: k in m && k != id ==> r[k] == m[k]
    ensures Coherent(m) ==> Coherent(r)
  {
    if id !in m then m
    else
      var event := Wake(m[id]);
      if event.None? then m
      else PreloadData(m, event.value.loader.sensorId, event.value.start, event.value.end, wave)
  }

  /** `addSensor` then `preloadData(id, 0, 100)`: 101 samples at 0, 1, ..., 100. */
  lemma PreloadOnFreshSensor(m: Registry, id: SensorId, wave: real -> real)
    ensures var r := PreloadData(AddSensor(m, id), id, 0.0, 100.0, wave);
            |r[id].data| == 101 && forall i :: 0 <= i < 101 ==> r[id].data[i].t == i as real
  {
    var batch := PreloadBatch(0.0, 100.0, wave);
    assert |batch| == 101;
    assert [] + batch == batch;
    RetainKeepsAllAbove(batch, 0.0);
    forall i | 0 <= i < 101 ensures batch[i].t == i as real {
      BatchStepsFromStart(0.0, 100.0, wave, i);
    }
  }

  lemma {:induction false} BatchStepsFromStart(start: Timestamp, end: Timestamp, wave: real -> real, i: nat)
    requires i < |PreloadBatch(start, end, wave)|
    ensures PreloadBatch(start, end, wave)[i].t == start + i as real
    decreases i
  {
    if i > 0 {
      BatchStepsFromStart(start, end, wave, i - 1);
    }
  }

  /**
   * `addSensor`, `updateSensorRange(id, 0, 100)`, then one wake of the
   * worker: the preload range is [-20, 120], and the buffer holds the 141
   * samples at -20, -19, ..., 120.
   */
  lemma RangeThenRefillOnFreshSensor(m: Registry, id: SensorId, wave: real -> real)
    ensures var r := Refill(UpdateSensorRange(AddSensor(m, id), id, 0.0, 100.0), id, wave);
            && r[id].worker == Running(-20.0, 120.0)
            && RetentionStart(r[id]) == -20.0
            && |r[id].data| == 141
            && forall i :: 0 <= i < 141 ==> r[id].data[i].t == -20.0 + i as real
  {
    var m1 := UpdateSensorRange(AddSensor(m, id), id, 0.0, 100.0);
    var b1 := SetRange(Default<Loader>(), 0.0, 100.0, PreloadFor(id));
    assert m1[id] == b1;
    assert b1.worker == Running(-20.0, 120.0) && RetentionStart(b1) == -20.0;
    assert Wake(b1) == Some(Invocation(PreloadFor(id), -20.0, 120.0));
    var batch := PreloadBatch(-20.0, 120.0, wave);
    var r := Refill(m1, id, wave);
    assert r[id] == AddData(b1, batch);
    assert |batch| == 141;
    assert [] + batch == batch;
    RetainKeepsAllAbove(batch, -20.0);
    forall i | 0 <= i < 141 ensures batch[i].t == -20.0 + i as real {
      BatchStepsFromStart(-20.0, 120.0, wave, i);
    }
  }
}
