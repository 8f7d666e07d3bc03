/**
 * The `sa_native` extension: a mock forecaster that repeats the last
 * observed value for `horizon` future steps (rust/sa_native/src/lib.rs).
 *
 * `f64` values are modelled as `real`; `usize` as `nat`.
 */
module SaNative {
  import opened Results

  const EmptyDataMessage: string := "Input data cannot be empty"
  const ZeroHorizonMessage: string := "Horizon must be greater than 0"

  /** `vec![v; n]`: a vector of `n` copies of `v`. */
  function Repeat<T>(v: T, n: nat): (r: seq<T>)
    ensures |r| == n
    ensures forall i :: 0 <= i < n ==> r[i] == v
  {
    if n == 0 then [] else Repeat(v, n - 1) + [v]
  }

  /** What a successful forecast must be: `horizon` copies of the last observation. */
  ghost predicate IsRepeatLast(data: seq<real>, horizon: nat, out: seq<real>)
    requires |data| > 0
  {
    |out| == horizon && forall i :: 0 <= i < |out| ==> out[i] == data[|data| - 1]
  }

  /** `predict_static_impl`: reject empty data, then a zero horizon, else repeat the last value. */
  function PredictStaticImpl(data: seq<real>, horizon: nat): (r: Result<seq<real>>)
    ensures |data| == 0 ==> r == Err(EmptyDataMessage)
    ensures |data| > 0 && horizon == 0 ==> r == Err(ZeroHorizonMessage)
    ensures r.Ok? <==> |data| > 0 && horizon > 0
    ensures r.Ok? ==> IsRepeatLast(data, horizon, r.value)
  {
    if |data| == 0 then
      Err(EmptyDataMessage)
    else if horizon == 0 then
      Err(ZeroHorizonMessage)
    else
      Ok(Repeat(data[|data| - 1], horizon))
  }

  /** The `#[pyfunction] predict_static` binding: core errors become `ValueError`s
      with the same message, successful forecasts pass through. */
  function PredictStatic(data: seq<real>, horizon: nat): (p: PyResult<seq<real>>)
    ensures p.PyOk? <==> |data| > 0 && horizon > 0
    ensures p.PyOk? ==> IsRepeatLast(data, horizon, p.value)
    ensures p.ValueError? ==> p.msg == (if |data| == 0 then EmptyDataMessage else ZeroHorizonMessage)
  {
    ToPyResult(PredictStaticImpl(data, horizon))
  }

  /** Success is exactly characterised by the repeat-last specification:
      the forecast is the one and only sequence that satisfies it. */
  lemma PredictStaticImplExact(data: seq<real>, horizon: nat, out: seq<real>)
    ensures PredictStaticImpl(data, horizon) == Ok(out)
        <==> |data| > 0 && horizon > 0 && IsRepeatLast(data, horizon, out)
  {
    if |data| > 0 && horizon > 0 && IsRepeatLast(data, horizon, out) {
      var r := PredictStaticImpl(data, horizon).value;
      assert |r| == |out|;
      assert forall i :: 0 <= i < |r| ==> r[i] == out[i];
      assert r == out;
    }
  }

  /** The empty-data check runs first: empty data with a zero horizon reports
      the empty-data error, and the two diagnostics differ. */
  lemma EmptyCheckedBeforeHorizon()
    ensures PredictStaticImpl([], 0) == Err(EmptyDataMessage)
    ensures EmptyDataMessage != ZeroHorizonMessage
  {
  }

  /** The forecast sees only the last observation and the horizon. */
  lemma DependsOnlyOnLast(d1: seq<real>, d2: seq<real>, horizon: nat)
    requires |d1| > 0 && |d2| > 0
    requires d1[|d1| - 1] == d2[|d2| - 1]
    ensures PredictStaticImpl(d1, horizon) == PredictStaticImpl(d2, horizon)
  {
  }

  /** The empty-data error names its cause, as the host-side check on the
      `rust_forecast` message asks of that module's error. */
  lemma EmptyDataMessageMentionsEmpty()
    ensures Contains(EmptyDataMessage, "empty")
  {
    assert OccursAt(EmptyDataMessage, "empty", 21);
  }

  /** The scenarios exercised by the crate's unit tests. */
  lemma UnitTestScenarios()
    ensures PredictStaticImpl([1.0, 2.0, 3.0, 4.0, 5.0], 3) == Ok([5.0, 5.0, 5.0])
    ensures PredictStaticImpl([42.0], 5) == Ok([42.0, 42.0, 42.0, 42.0, 42.0])
    ensures PredictStaticImpl([], 3) == Err(EmptyDataMessage)
    ensures PredictStaticImpl([1.0, 2.0, 3.0], 0) == Err(ZeroHorizonMessage)
    ensures PredictStaticImpl([10.0, 20.0, 30.0], 100).Ok?
    ensures |PredictStaticImpl([10.0, 20.0, 30.0], 100).value| == 100
    ensures forall x <- PredictStaticImpl([10.0, 20.0, 30.0], 100).value :: x == 30.0
  {
    PredictStaticImplExact([1.0, 2.0, 3.0, 4.0, 5.0], 3, [5.0, 5.0, 5.0]);
    PredictStaticImplExact([42.0], 5, [42.0, 42.0, 42.0, 42.0, 42.0]);
  }

  /** The scenarios the example Python script runs through the binding. */
  lemma BindingScenarios()
    ensures PredictStatic([1.0, 2.0, 3.0, 4.0, 5.0], 3) == PyOk([5.0, 5.0, 5.0])
    ensures PredictStatic([42.0], 2) == PyOk([42.0, 42.0])
    ensures PredictStatic([10.0, 20.0, 30.0], 5) == PyOk([30.0, 30.0, 30.0, 30.0, 30.0])
    ensures PredictStatic([], 3) == ValueError(EmptyDataMessage)
    ensures PredictStatic([1.0, 2.0], 0) == ValueError(ZeroHorizonMessage)
  {
    PredictStaticImplExact([1.0, 2.0, 3.0, 4.0, 5.0], 3, [5.0, 5.0, 5.0]);
    PredictStaticImplExact([42.0], 2, [42.0, 42.0]);
    PredictStaticImplExact([10.0, 20.0, 30.0], 5, [30.0, 30.0, 30.0, 30.0, 30.0]);
  }
}
