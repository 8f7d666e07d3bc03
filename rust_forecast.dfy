/**
 * The `rust_forecast` extension: a mock forecaster that returns its input
 * multiplied by 1.0 (rust_forecast/src/lib.rs).
 *
 * `f64` values are modelled as `real`.
 */
module RustForecast {
  import opened Results

  const EmptyInputMessage: string := "Input vector cannot be empty"

  /** `xs.iter().map(|&x| x * factor).collect()`: every element scaled, in order. */
  function ScaleAll(xs: seq<real>, factor: real): (r: seq<real>)
    ensures |r| == |xs|
    ensures forall i :: 0 <= i < |xs| ==> r[i] == xs[i] * factor
  {
    if xs == [] then [] else [xs[0] * factor] + ScaleAll(xs[1..], factor)
  }

  /** Scaling by one changes nothing: the element values and their order survive. */
  lemma ScaleByOneIsIdentity(xs: seq<real>)
    ensures ScaleAll(xs, 1.0) == xs
  {
  }

  /** `predict`: reject an empty vector, else return every element times 1.0. */
  function Predict(input: seq<real>): (r: Result<seq<real>>)
    ensures r.Ok? <==> |input| > 0
    ensures |input| == 0 ==> r == Err(EmptyInputMessage)
    ensures r.Ok? ==> r.value == input
  {
    if |input| == 0 then
      Err(EmptyInputMessage)
    else
      ScaleByOneIsIdentity(input);
      Ok(ScaleAll(input, 1.0))
  }

  /** The `#[pyfunction(name = "predict")] predict_py` binding. */
  function PredictPy(input: seq<real>): (p: PyResult<seq<real>>)
    ensures p.PyOk? <==> |input| > 0
    ensures p.PyOk? ==> p.value == input
    ensures p.ValueError? ==> p.msg == EmptyInputMessage
  {
    ToPyResult(Predict(input))
  }

  /** Feeding a forecast back in gives the same forecast. */
  lemma PredictIdempotent(input: seq<real>)
    requires Predict(input).Ok?
    ensures Predict(Predict(input).value) == Predict(input)
  {
  }

  /** The host-side error for an empty vector mentions "empty". */
  lemma EmptyInputErrorMentionsEmpty()
    ensures PredictPy([]).ValueError?
    ensures Contains(PredictPy([]).msg, "empty")
  {
    assert OccursAt(EmptyInputMessage, "empty", 23);
  }

  /** The scenarios exercised by the crate's unit tests and the Python tests. */
  lemma TestScenarios()
    ensures Predict([1.0, 2.0, 3.0]) == Ok([1.0, 2.0, 3.0])
    ensures Predict([]) == Err(EmptyInputMessage)
    ensures Predict([-1.0, -2.0, -3.0]) == Ok([-1.0, -2.0, -3.0])
    ensures Predict([0.0, 0.0, 0.0]) == Ok([0.0, 0.0, 0.0])
    ensures PredictPy([5.0, 10.0, 15.0]) == PyOk([5.0, 10.0, 15.0])
    ensures PredictPy([100.5]) == PyOk([100.5])
  {
  }
}
