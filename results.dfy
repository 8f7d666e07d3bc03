/**
 * Outcomes shared by both native forecasting modules.
 *
 * The Rust core functions return `Result<Vec<f64>, String>`; their Python
 * bindings turn an `Err(msg)` into a Python `ValueError(msg)` and hand an
 * `Ok` value back unchanged.
 */
module Results {

  /** Rust's `Result<_, String>`: a value, or an error message. */
  datatype Result<T> = Ok(value: T) | Err(msg: string)

  /** What the host sees: a returned value, or a raised `ValueError` carrying a message. */
  datatype PyResult<T> = PyOk(value: T) | ValueError(msg: string)

  /** The `.map_err(|e| PyValueError::new_err(e))` step of both bindings. */
  function ToPyResult<T>(r: Result<T>): (p: PyResult<T>)
    ensures p.PyOk? <==> r.Ok?
    ensures r.Ok? ==> p.value == r.value
    ensures r.Err? ==> p.msg == r.msg
  {
    match r
    case Ok(v) => PyOk(v)
    case Err(m) => ValueError(m)
  }

  /** The host side can always tell two different core outcomes apart:
      the error mapping loses neither the value nor the message. */
  lemma ToPyResultInjective<T>(r1: Result<T>, r2: Result<T>)
    requires ToPyResult(r1) == ToPyResult(r2)
    ensures r1 == r2
  {
  }

  /** `sub` occurs in `s` starting at index `i`. */
  predicate OccursAt(s: string, sub: string, i: int)
  {
    0 <= i <= |s| - |sub| && s[i..i + |sub|] == sub
  }

  /** `sub` occurs as a contiguous piece of `s`. */
  ghost predicate Contains(s: string, sub: string)
  {
    exists i :: OccursAt(s, sub, i)
  }
}
