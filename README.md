# Mock time-series forecasters, modelled in Dafny

The repository ships two native extension modules for Python, each a mock
forecaster written in Rust:

- `sa_native` (`rust/sa_native/src/lib.rs`): `predict_static_impl(data, horizon)`
  rejects empty data, then a zero horizon, each with its own message, and
  otherwise returns `horizon` copies of the last observation. The Python binding
  `predict_static` turns an error message into a `ValueError` carrying it.
- `rust_forecast` (`rust_forecast/src/lib.rs`): `predict(input)` rejects an empty
  vector and otherwise returns every element multiplied by `1.0`. The Python
  binding `predict_py` (exposed as `predict`) maps the error the same way.

The model has three modules:

- `Results` (`results.dfy`) holds the shared outcome types. `Result` is Rust's
  `Result<_, String>`. `PyResult` is what the host sees: a value, or a raised
  `ValueError` with a message. `ToPyResult` is the `map_err` step of both bindings.
  The predicates `OccursAt` and `Contains` state that one string occurs inside
  another, as Python's `"empty" in message` tests.
- `SaNative` (`sa_native.dfy`) models the repeat-last forecaster. `vec![v; n]`
  is the recursive function `Repeat`. The ghost predicate `IsRepeatLast` is the
  reference specification of a successful forecast.
- `RustForecast` (`rust_forecast.dfy`) models the identity forecaster. The
  `iter().map(|&x| x * 1.0).collect()` pipeline is kept as `ScaleAll(xs, 1.0)`,
  and a lemma proves that it is the identity.

`f64` is modelled as `real` and `usize` as `nat`. The source reports errors only
as message strings, so the model does too. The two causes of a `sa_native` error
are told apart by their messages.

## Model

| member | source | states |
|---|---|---|
| `Results.ToPyResult` | rust/sa_native/src/lib.rs:52-55 | an `Ok` value reaches the host unchanged; an `Err(msg)` becomes a `ValueError` with the same `msg` |
| `Results.ToPyResultInjective` | rust_forecast/src/lib.rs:29-32 | the error mapping loses nothing: different core outcomes stay different on the host side |
| `SaNative.Repeat` | rust/sa_native/src/lib.rs:17 | `vec![v; n]` has length `n` and every element equals `v` |
| `SaNative.PredictStaticImpl` | rust/sa_native/src/lib.rs:5-20 | empty data gives "Input data cannot be empty" whatever the horizon; non-empty data with horizon 0 gives "Horizon must be greater than 0"; success exactly when data is non-empty and horizon > 0; on success the result has length `horizon` and every element is the last input value |
| `SaNative.PredictStatic` | rust/sa_native/src/lib.rs:51-55 | the binding succeeds exactly when data is non-empty and horizon > 0, returns the repeat-last forecast, and raises `ValueError` with the empty-data message for empty data and the horizon message otherwise |
| `SaNative.PredictStaticImplExact` | rust/sa_native/src/lib.rs:15-19 | the result is `Ok(out)` if and only if the input is valid and `out` satisfies the repeat-last specification, so the forecast is the unique such sequence |
| `SaNative.EmptyCheckedBeforeHorizon` | rust/sa_native/src/lib.rs:7-13 | the empty check runs first: empty data with horizon 0 reports the empty-data error, and the two messages differ |
| `SaNative.DependsOnlyOnLast` | rust/sa_native/src/lib.rs:16-17 | two inputs with the same last element and the same horizon give identical results |
| `SaNative.EmptyDataMessageMentionsEmpty` | rust/sa_native/src/lib.rs:7-9 | the empty-data message contains "empty"; this mirrors the host-side check made on the `rust_forecast` message |
| `SaNative.UnitTestScenarios` | rust/sa_native/src/lib.rs:71-131 | the crate's unit-test scenarios: `[1..5], 3` gives `[5,5,5]`; `[42], 5` gives five 42s; empty data and zero horizon give their messages; `[10,20,30], 100` gives 100 copies of 30 |
| `SaNative.BindingScenarios` | examples/python_import_test.py:47-94 | the example script's calls through the binding: `[1..5], 3` gives `[5,5,5]`; `[42], 2` gives `[42,42]`; `[10,20,30], 5` gives five 30s; `[], 3` and `[1,2], 0` raise `ValueError` with the empty-data and the horizon message |
| `RustForecast.ScaleAll` | rust_forecast/src/lib.rs:11 | the map-and-collect keeps the length and scales each element at the same index, in order |
| `RustForecast.ScaleByOneIsIdentity` | rust_forecast/src/lib.rs:10-11 | multiplying every element by 1.0 returns the input sequence unchanged |
| `RustForecast.Predict` | rust_forecast/src/lib.rs:5-12 | succeeds exactly when the input is non-empty; empty input gives "Input vector cannot be empty"; on success the output equals the input element by element, with length and order preserved |
| `RustForecast.PredictPy` | rust_forecast/src/lib.rs:28-32 | the binding returns the input for non-empty input and raises `ValueError` with the empty-input message otherwise |
| `RustForecast.PredictIdempotent` | rust_forecast/src/lib.rs:5-12 | applying `predict` to its own successful output gives that output again |
| `RustForecast.EmptyInputErrorMentionsEmpty` | rust_forecast/tests_py/test_import.py:64-78 | for empty input the binding raises `ValueError` and its message contains "empty" |
| `RustForecast.TestScenarios` | rust_forecast/src/lib.rs:45-83 | the crate's unit-test scenarios plus the Python-side cases: identity on `[1,2,3]`, `[-1,-2,-3]`, `[0,0,0]`, `[5,10,15]` and `[100.5]`; the empty vector gives its message |

## Left out

- PyO3 module registration (`#[pymodule]`, rust/sa_native/src/lib.rs:61-65 and rust_forecast/src/lib.rs:35-39): foreign-library glue with no logic of its own.
- Argument marshalling between Python lists and `Vec<f64>`: this is done by PyO3. A negative or non-integer horizon fails in PyO3's `usize` extraction before the Rust code runs. The model's `horizon: nat` rules such inputs out.
- `SaNative.PredictStaticImpl`: the horizon is an unbounded `nat`, so the model promises success for any positive horizon. It does not model the `usize` upper bound, the "capacity overflow" panic of `vec![v; horizon]` for horizons past `isize::MAX / 8`, or an allocation failure for smaller but still huge horizons.
- `SaNative.PredictStatic`: for the same reason it does not model the `OverflowError` PyO3 raises for a horizon past 2^64 - 1, or the `PanicException` a capacity-overflow panic becomes on the host side.
- IEEE-754 floating point: `f64` is modelled as `real`. So `x * 1.0` is exactly the identity. NaN (where NaN ≠ NaN), signed zero and rounding are not modelled.
- `RustForecast.EmptyInputErrorMentionsEmpty`: the Python test lower-cases the message before it searches for "empty". Case folding is not modelled; the message already contains "empty" in lower case.
- The Python scripts `examples/python_import_test.py` and `rust_forecast/tests_py/test_import.py` import the modules, print results and give build hints. Only their expected values appear in the model: those of `examples/python_import_test.py` in `SaNative.BindingScenarios`, those of `rust_forecast/tests_py/test_import.py` in `RustForecast.TestScenarios` and `RustForecast.EmptyInputErrorMentionsEmpty`.
