# Implied-volatility calibration for a BSM call, in Dafny

This project models the core of a small C++ library that prices a European call
option under the Black-Scholes-Merton model and calibrates the implied
volatility: given an observed call price, it searches for the volatility whose
model price reproduces it.

The model covers:

- the immutable value types `CallStockOption`, `MarketState`, `MarketData`,
  `ModelParams`, `ModelParamsGrad` and `AccuracyParams`. Each is a datatype.
  Each validating C++ constructor becomes a function returning
  `Result<_, Error>`; the thrown `std::invalid_argument` becomes an `Error`
  value;
- `price`: the expired-option branch (`T < ε` gives `max(0, S − K)`) is
  modelled exactly, and the closed form is uninterpreted;
- `model_grad`: modelled as a wrapper around an uninterpreted vega;
- `check_params_for_calibration`, whose three guards are tried in the
  source's order, with `exp` uninterpreted;
- `calibrate`, the safeguarded Newton/bisection loop, in two forms. The
  method `Calibrate` keeps the C++ loop variables (`model`, `p`, `grad`,
  `lb`, `ub`, `iters`, `newVola`, `newtonOk`) and the same branches. The
  functions `Start`, `Step` and `Run` specify the same loop over a
  `SolverState`. `Calibrate` is proved to return `CalibrateSpec` of its
  inputs, and the properties are proved about the functions.

The transcendental parts (`erf`, `exp`, `log`, `sqrt`) are the function-typed
fields of the datatype `Pricing.Analytics`: `exp`, the BSM closed form, the
vega and the Brenner–Subrahmanyam initial guess. Every result holds for every
choice of these functions that meets the lemma's stated hypotheses. `ε` is `std::numeric_limits<double>::epsilon()`,
i.e. exactly 2^-52 (`BsmTypes.Epsilon`). The search range is
`[VolMin, VolMax] = [ε, 5]`. The stderr warning becomes the boolean
`Calibrated.warning`.

Facts about the data model that need no proof in Dafny:

- Datatypes are immutable values, like the C++ classes that have private
  fields and only `const` getters.
- `Calibrate` gets its inputs as values and returns a fresh `ModelParams`, so
  it cannot change what the caller passed in.
- `ModelParamsGrad` is its own type with no validity predicate, so a vega may
  be zero or negative.
- `AccuracyParams` is not validated. `maxIter` is a 32-bit unsigned value
  (`BsmTypes.Unsigned`). The counter is incremented only while it is below
  `maxIter`, and Dafny checks that the loop's counter never leaves the type,
  so it never wraps.

Where the library's documented contracts and its code disagree, the
model follows the code:

- Strike and volatility are rejected below ε (2^-52), not at ≤ 0.
- The accuracy parameters are not checked to be positive, so `maxIter = 0` is
  allowed. In that case the loop body never runs and the warning is always
  raised.
- The warning depends only on the counter reaching `max_iter`. An iterate
  produced by the last pass that happens to meet the tolerances still gets the
  warning, because the tolerances are tested only at the top of the loop.

## Model

| member | source | states |
|---|---|---|
| BsmTypes.NewCallStockOption | bsm.cpp:34-43 | accepted exactly when strike ≥ ε and time ≥ 0 (time 0 accepted); a small strike reports the strike error before the time error; an accepted value holds the given fields |
| BsmTypes.NewMarketState | bsm.cpp:50-55 | accepted exactly when stock price ≥ 0, with any interest rate (negative ones included); the error is the stock-price error |
| BsmTypes.NewMarketData | bsm.cpp:62-67 | accepted exactly when call price ≥ 0; the error is the call-price error |
| BsmTypes.NewModelParams | bsm.cpp:72-77 | accepted exactly when volatility ≥ ε (ε itself accepted); the error is the volatility error |
| BsmTypes.ConstructorBoundaries | tests/unit.cpp:14-32 | the boundary inputs: (0,0) and (100,−1) options, stock −1, call −1 and volatility 0 are refused; option (100,0), state (0,−0.2) and volatility ε are accepted |
| Pricing.Price | bsm.cpp:87-102 | below ε time, the price is the larger of 0 and S − K, so it is never negative and never below the intrinsic value; otherwise it is the closed form |
| Pricing.ExpiredPrices | tests/unit.cpp:73-74 | expired options with strike 50 and 150 on a stock at 100 are worth 50 and 0, whatever the closed form |
| Calibration.CheckParamsForCalibration | bsm.cpp:16-30 | passes exactly when T ≥ ε, C < S and C > S − K·exp(−rT); each failure reports the first guard that fails; with C ≥ 0, passing implies S > 0 |
| Calibration.Clamp | bsm.cpp:127-130 | the clamped guess lies in [ε, 5], equals the guess when it is already in range, and equals the nearer end otherwise |
| Calibration.Start | bsm.cpp:127-136 | the first state meets the loop invariant, with lb = ε, ub = 5, counter 0 and the clamped guess as volatility |
| Calibration.Choose | bsm.cpp:148-167 | the candidate lies in [lb, ub]; it is the Newton step exactly when \|vega\| > ε and that step lies in [lb, ub]; otherwise it is the midpoint |
| Calibration.Step | bsm.cpp:148-173 | one pass keeps the invariant: ε ≤ lb ≤ vola ≤ ub ≤ 5, cached price and vega belong to vola, a moved ub has price above the quote and a moved lb has price at or below it. lb never decreases and ub never increases; the candidate replaces ub when its price exceeds the quote and lb otherwise; a bisection pass halves the width; the counter grows by one |
| Calibration.Run | bsm.cpp:138-174 | the loop keeps the invariant, never passes the budget, only narrows the bracket, and stops before the budget only when both tolerances are met |
| Calibration.CalibrateSpec | bsm.cpp:116-186 | fails exactly when the check fails, with the check's error and before any iteration. Otherwise: the returned volatility is valid and in [ε, 5]; with no warning, its price meets both tolerances; with a budget of 0, the warning is raised and the clamped guess is returned |
| Calibration.Calibrate | bsm.cpp:116-186 | the imperative loop returns exactly CalibrateSpec of its inputs; the ModelParams built inside the loop never fail validation |
| CalibrationProperties.StepN | bsm.cpp:139-174 | any number of passes keeps the invariant, adds that many to the counter and only narrows the bracket |
| CalibrationProperties.Iterate | bsm.cpp:127-174 | the k-th iterate meets the invariant, has counter k, and its bracket lies within [ε, 5] |
| CalibrationProperties.RunIsFirstStop | bsm.cpp:139-146 | the loop ends at the first state that meets the accuracy test, or at the budget: it equals the state after that many passes, and every earlier state fails the test |
| CalibrationProperties.CalibrationReturnsFirstAccurateIterate | bsm.cpp:139-185 | a passing calibration returns the volatility of the first iterate that meets the tolerances, or of iterate max_iter when none of iterates 0..max_iter−1 does; the warning is raised exactly when none of them does |
| CalibrationProperties.RootStaysBracketed | bsm.cpp:169-173 | assuming the price is strictly increasing in volatility, a volatility in [ε, 5] whose price equals the quote lies in every bracket that meets the invariant |
| CalibrationProperties.RootInEveryIterateBracket | bsm.cpp:135-173 | under the same assumption that implied volatility lies in the bracket of every iterate |
| CalibrationProperties.ZeroQuoteAlwaysWarns | bsm.cpp:141-183 | with a zero quote that passes the check, the relative test never holds, so the calibration always returns with the warning |
| CalibrationProperties.ZeroQuoteCanPassCheck | bsm.cpp:26-29 | a zero quote passes the check when S − K·exp(−rT) is negative (strike 200, stock 100, zero rate) |
| CalibrationProperties.CalibrationArgumentChecks | tests/unit.cpp:84-92 | with a stock at 100 and rate 5%, calibration fails for an expired option, for a quote equal to the stock price, and for a quote of 4.87 (below 100 − 100·exp(−0.05)), each with its own error |

## Left out

- The BSM closed form, `normal_cdf`, the vega formula and the initial-guess formula are floating-point transcendental computations (bsm.cpp:11-14, 95-113, 127). They are uninterpreted fields of `Analytics`, so the numeric expected prices, vegas and calibrated volatilities of the tests are not stated.
- Convergence speed and the price/calibration round trip depend on what these functions compute, so they are not proved.
- Monotonicity of the price in volatility is not proved. It appears only as the explicit hypothesis `StrictlyIncreasing` of the two root lemmas.
- The model uses exact reals, not IEEE doubles: rounding, overflow, infinities and NaN are not modelled. The one IEEE case it captures is the relative error `|p − C| / C` at C = 0 (bsm.cpp:144): there the double quotient is infinity or NaN, the comparison is false, and `RelativeBelow` is false.
- NaN arguments cannot be represented. In the source every guard is a `<`, `>=` or `<=` comparison that is false on NaN (bsm.cpp:20-29, 35, 38, 51, 63, 73), so every constructor and the calibration check accept a NaN. `std::max` and `std::min` then return the NaN guess unchanged (bsm.cpp:128-129), and the returned volatility can be NaN. The promise that the returned volatility lies in [ε, 5] therefore holds for the source only on non-NaN inputs.
- Calibration.Step: a bisection pass halves the bracket width only in exact arithmetic. In doubles `0.5 * (lb + ub)` (bsm.cpp:163) is rounded, and once lb and ub are adjacent doubles the midpoint equals one of them, so the width stops shrinking. Rounding of the Newton step (bsm.cpp:152) is not modelled either.
- The text of the exception messages and of the stderr warning, and its output stream, are not modelled. Errors are `Error` kinds, and the warning is the boolean `Calibrated.warning`.
- `Pricing.ModelGrad`: it has no contract beyond its type, because it only wraps the uninterpreted vega in `ModelParamsGrad`.
- `Calibration.Calibrate`: its contract is its equality with `CalibrateSpec`; the properties of the result are stated on `CalibrateSpec` and in the lemmas, not repeated on the method.
- main.cpp (a command-line demonstration with fixed inputs and printing) and tests/performance.cpp (benchmarks) are not part of this model.
