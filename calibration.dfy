/**
 * Implied-volatility calibration: the precondition check and the
 * safeguarded Newton/bisection solver. The solver's loop is specified by the
 * functions Start, Step and Run over a SolverState that holds exactly the
 * loop's variables; the method Calibrate runs the loop imperatively and is
 * proved to compute what Run and Start specify.
 */
module Calibration {
  import opened Wrappers
  import opened BsmTypes
  import opened Pricing

  /** The admissible volatility range searched by the solver. */
  const VolMin: real := Epsilon
  const VolMax: real := 5.0

  /**
   * The three guards run before calibrating: the option must not be expired,
   * the quote must lie below the stock price and strictly above the lower
   * no-arbitrage bound S - K * exp(-rT). They are tried in this order.
   */
  function CheckParamsForCalibration(a: Analytics, md: MarketData, option: CallStockOption, ms: MarketState)
    : (r: Outcome<Error>)
    ensures r.Pass? <==>
      && option.timeToExpiration >= Epsilon
      && md.callPrice < ms.stockPrice
      && md.callPrice > ms.stockPrice - option.strikePrice * a.exp(-ms.interestRate * option.timeToExpiration)
    ensures option.timeToExpiration < Epsilon ==> r == Fail(CalibrationTimeNotPositive)
    ensures option.timeToExpiration >= Epsilon && md.callPrice >= ms.stockPrice ==> r == Fail(CallPriceNotBelowStock)
    ensures r.Fail? && option.timeToExpiration >= Epsilon && md.callPrice < ms.stockPrice ==> r == Fail(TimeValueNotPositive)
    // with a valid quote, passing the check implies a strictly positive stock price
    ensures r.Pass? && md.Valid() ==> ms.stockPrice > 0.0
  {
    if option.timeToExpiration < Epsilon then Fail(CalibrationTimeNotPositive)
    else if md.callPrice >= ms.stockPrice then Fail(CallPriceNotBelowStock)
    else if md.callPrice <= ms.stockPrice - option.strikePrice * a.exp(-ms.interestRate * option.timeToExpiration) then
      Fail(TimeValueNotPositive)
    else Pass
  }

  /** Everything a calibration call is given. */
  datatype Problem = Problem(a: Analytics, md: MarketData, option: CallStockOption, ms: MarketState, params: AccuracyParams)

  /** The price and vega of the problem's option as functions of the volatility alone. */
  function PriceAt(pb: Problem, vola: real): real
  {
    Price(pb.a, pb.option, pb.ms, ModelParams(vola))
  }

  function GradAt(pb: Problem, vola: real): real
  {
    ModelGrad(pb.a, pb.option, pb.ms, ModelParams(vola)).volatility
  }

  /**
   * The loop's variables: the current volatility with its price and vega,
   * the bracket [lb, ub] and the iteration counter.
   */
  datatype SolverState = SolverState(vola: real, p: real, grad: real, lb: real, ub: real, iters: nat)

  /**
   * The invariant of the loop: the bracket lies within [VolMin, VolMax] and
   * holds the current volatility, the cached price and vega belong to that
   * volatility, and each bound the loop has moved is on its side of the quote
   * (the price at ub exceeds it, the price at lb does not).
   */
  predicate Inv(pb: Problem, s: SolverState)
  {
    && VolMin <= s.lb <= s.vola <= s.ub <= VolMax
    && s.p == PriceAt(pb, s.vola)
    && s.grad == GradAt(pb, s.vola)
    && (s.ub == VolMax || PriceAt(pb, s.ub) > pb.md.callPrice)
    && (s.lb == VolMin || PriceAt(pb, s.lb) <= pb.md.callPrice)
  }

  /**
   * The relative-error test |p - C| / C < rtol. When C is zero the double
   * division yields infinity or NaN, and the comparison is false.
   */
  predicate RelativeBelow(absError: real, quote: real, rtol: real)
  {
    quote != 0.0 && absError / quote < rtol
  }

  /** The accuracy requirement on a price: both the absolute and the relative error are small. */
  predicate WithinTolerance(pb: Problem, price: real)
  {
    var absError := Abs(price - pb.md.callPrice);
    absError < pb.params.atol && RelativeBelow(absError, pb.md.callPrice, pb.params.rtol)
  }

  /** The early-exit test of the loop, on the cached price. */
  predicate AccuracyMet(pb: Problem, s: SolverState)
  {
    WithinTolerance(pb, s.p)
  }

  function Abs(x: real): (r: real)
    ensures r >= 0.0 && (r == x || r == -x)
  {
    if x < 0.0 then -x else x
  }

  /** The initial guess clamped into the admissible range. */
  function Clamp(v: real): (r: real)
    ensures VolMin <= r <= VolMax
    ensures VolMin <= v <= VolMax ==> r == v
    ensures v < VolMin ==> r == VolMin
    ensures v > VolMax ==> r == VolMax
  {
    Min(Max(v, VolMin), VolMax)
  }

  /** The state before the first iteration: the clamped guess and the full range. */
  function Start(pb: Problem): (s: SolverState)
    ensures Inv(pb, s)
    ensures s.lb == VolMin && s.ub == VolMax && s.iters == 0
    ensures s.vola == Clamp(pb.a.initialGuess(pb.md, pb.option, pb.ms))
  {
    var v := Clamp(pb.a.initialGuess(pb.md, pb.option, pb.ms));
    var model := NewModelParams(v).value;
    SolverState(v, Price(pb.a, pb.option, pb.ms, model), ModelGrad(pb.a, pb.option, pb.ms, model).volatility,
                VolMin, VolMax, 0)
  }

  /** The Newton step from the current volatility. */
  function NewtonCandidate(pb: Problem, s: SolverState): real
    requires s.grad != 0.0
  {
    s.vola - (s.p - pb.md.callPrice) / s.grad
  }

  /** A volatility to try next, and whether it came from a Newton step. */
  datatype Candidate = Candidate(vola: real, newton: bool)

  /**
   * The step choice: the Newton step when the vega is above epsilon in
   * magnitude and the step stays inside the bracket, otherwise the midpoint.
   */
  function Choose(pb: Problem, s: SolverState): (c: Candidate)
    requires s.lb <= s.ub
    ensures s.lb <= c.vola <= s.ub
    ensures c.newton <==> Abs(s.grad) > Epsilon && s.lb <= NewtonCandidate(pb, s) <= s.ub
    ensures c.newton ==> c.vola == NewtonCandidate(pb, s)
    ensures !c.newton ==> c.vola - s.lb == s.ub - c.vola
  {
    if Abs(s.grad) > Epsilon && s.lb <= NewtonCandidate(pb, s) <= s.ub then Candidate(NewtonCandidate(pb, s), true)
    else Candidate(0.5 * (s.lb + s.ub), false)
  }

  /**
   * One pass of the loop body after a failed accuracy test: price the
   * candidate (its ModelParams never fails validation) and replace ub by it
   * when its price exceeds the quote, lb otherwise.
   */
  function Step(pb: Problem, s: SolverState): (r: SolverState)
    requires Inv(pb, s)
    ensures Inv(pb, r)
    ensures r.iters == s.iters + 1
    ensures s.lb <= r.lb && r.ub <= s.ub
    ensures r.vola == Choose(pb, s).vola
    ensures if r.p > pb.md.callPrice then r.ub == r.vola && r.lb == s.lb else r.lb == r.vola && r.ub == s.ub
    ensures !Choose(pb, s).newton ==> r.ub - r.lb == (s.ub - s.lb) / 2.0
  {
    var c := Choose(pb, s);
    var model := NewModelParams(c.vola).value;
    var p := Price(pb.a, pb.option, pb.ms, model);
    var grad := ModelGrad(pb.a, pb.option, pb.ms, model).volatility;
    if p > pb.md.callPrice then SolverState(c.vola, p, grad, s.lb, c.vola, s.iters + 1)
    else SolverState(c.vola, p, grad, c.vola, s.ub, s.iters + 1)
  }

  /**
   * The loop from state s: stop when the budget is used up or the accuracy
   * test passes, otherwise step. It never exceeds the budget, keeps the
   * invariant, only narrows the bracket, and stops early only on success.
   */
  function Run(pb: Problem, s: SolverState): (r: SolverState)
    requires Inv(pb, s) && s.iters <= pb.params.maxIter
    ensures Inv(pb, r)
    ensures s.iters <= r.iters <= pb.params.maxIter
    ensures s.lb <= r.lb && r.ub <= s.ub
    ensures r.iters < pb.params.maxIter ==> AccuracyMet(pb, r)
    decreases pb.params.maxIter - s.iters
  {
    if s.iters == pb.params.maxIter || AccuracyMet(pb, s) then s
    else Run(pb, Step(pb, s))
  }

  /** What a calibration returns: the model, and whether the warning was emitted. */
  datatype Calibrated = Calibrated(model: ModelParams, warning: bool)

  /** The result of a calibration, as a function of its inputs. */
  function CalibrateSpec(a: Analytics, md: MarketData, option: CallStockOption, ms: MarketState, params: AccuracyParams)
    : (r: Result<Calibrated, Error>)
    ensures r.Err? <==> CheckParamsForCalibration(a, md, option, ms).Fail?
    ensures r.Err? ==> r.error == CheckParamsForCalibration(a, md, option, ms).error
    ensures r.Ok? ==> r.value.model.Valid() && VolMin <= r.value.model.volatility <= VolMax
    ensures r.Ok? && !r.value.warning ==>
      WithinTolerance(Problem(a, md, option, ms, params), PriceAt(Problem(a, md, option, ms, params), r.value.model.volatility))
    ensures r.Ok? && params.maxIter == 0 ==>
      r.value.warning && r.value.model.volatility == Clamp(a.initialGuess(md, option, ms))
  {
    match CheckParamsForCalibration(a, md, option, ms)
    case Fail(e) => Err(e)
    case Pass =>
      var pb := Problem(a, md, option, ms, params);
      var last := Run(pb, Start(pb));
      Ok(Calibrated(ModelParams(last.vola), last.iters == params.maxIter))
  }

  /**
   * The calibration loop as the library runs it. A failed check is returned
   * before any iteration; otherwise the loop keeps the bracket, tries a
   * Newton step, falls back to bisection, and narrows the bracket, and the
   * warning is raised exactly when the counter reaches the budget. The
   * properties of the result are those of CalibrateSpec.
   */
  method Calibrate(a: Analytics, md: MarketData, option: CallStockOption, ms: MarketState, params: AccuracyParams)
    returns (r: Result<Calibrated, Error>)
    ensures r == CalibrateSpec(a, md, option, ms, params)
  {
    var check := CheckParamsForCalibration(a, md, option, ms);
    if check.Fail? {
      return Err(check.error);
    }
    ghost var pb := Problem(a, md, option, ms, params);

    var initVol := a.initialGuess(md, option, ms);
    initVol := Max(initVol, VolMin);
    initVol := Min(initVol, VolMax);
    var model := NewModelParams(initVol).value;

    var p := Price(a, option, ms, model);
    var grad := ModelGrad(a, option, ms, model);

    var lb := VolMin;
    var ub := VolMax;

    var iters: Unsigned := 0;
    while iters < params.maxIter
      invariant iters <= params.maxIter
      invariant Inv(pb, SolverState(model.volatility, p, grad.volatility, lb, ub, iters))
      invariant Run(pb, SolverState(model.volatility, p, grad.volatility, lb, ub, iters)) == Run(pb, Start(pb))
    {
      ghost var s := SolverState(model.volatility, p, grad.volatility, lb, ub, iters);
      var absError := Abs(p - md.callPrice);

      if absError < params.atol && RelativeBelow(absError, md.callPrice, params.rtol) {
        break;
      }
      assert Run(pb, s) == Run(pb, Step(pb, s));
      ghost var c := Choose(pb, s);

      var newVola: real;
      var newtonOk := false;
      if Abs(grad.volatility) > Epsilon {
        newVola := model.volatility - (p - md.callPrice) / grad.volatility;
        if lb <= newVola <= ub {
          model := NewModelParams(newVola).value;
          p := Price(a, option, ms, model);
          grad := ModelGrad(a, option, ms, model);
          newtonOk := true;
        }
      }

      if !newtonOk {
        newVola := 0.5 * (lb + ub);
        model := NewModelParams(newVola).value;
        p := Price(a, option, ms, model);
        grad := ModelGrad(a, option, ms, model);
      }
      assert newtonOk == c.newton && newVola == c.vola && model == ModelParams(c.vola);

      if p > md.callPrice {
        ub := newVola;
      } else {
        lb := newVola;
      }
      iters := iters + 1;
      assert SolverState(model.volatility, p, grad.volatility, lb, ub, iters) == Step(pb, s);
    }

    var warning := iters == params.maxIter;
    return Ok(Calibrated(model, warning));
  }
}
