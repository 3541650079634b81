/**
 * Properties of the calibration solver that relate several iterations: the
 * loop stops at the first iterate that meets the accuracy test, the warning
 * is raised exactly when none of the budgeted iterates does, and, assuming
 * the price is strictly increasing in the volatility, every bracket keeps
 * the implied volatility.
 */
module CalibrationProperties {
  import opened Wrappers
  import opened BsmTypes
  import opened Pricing
  import opened Calibration

  /** The state after n passes of the loop body from s, ignoring the accuracy test. */
  function StepN(pb: Problem, s: SolverState, n: nat): (r: SolverState)
    requires Inv(pb, s)
    ensures Inv(pb, r)
    ensures r.iters == s.iters + n
    ensures s.lb <= r.lb && r.ub <= s.ub
    decreases n
  {
    if n == 0 then s else StepN(pb, Step(pb, s), n - 1)
  }

  /** The k-th iterate of a calibration: the state at the top of the loop's k-th pass. */
  function Iterate(pb: Problem, k: nat): (r: SolverState)
    ensures Inv(pb, r) && r.iters == k
    ensures VolMin <= r.lb <= r.ub <= VolMax
  {
    StepN(pb, Start(pb), k)
  }

  /**
   * The loop stops at the first state that meets the accuracy test, or
   * after the budget when none does: every state it passes by fails the test.
   */
  lemma {:induction false} RunIsFirstStop(pb: Problem, s: SolverState)
    requires Inv(pb, s) && s.iters <= pb.params.maxIter
    ensures Run(pb, s) == StepN(pb, s, Run(pb, s).iters - s.iters)
    ensures forall k: nat :: k < Run(pb, s).iters - s.iters ==> !AccuracyMet(pb, StepN(pb, s, k))
    decreases pb.params.maxIter - s.iters
  {
    if s.iters == pb.params.maxIter || AccuracyMet(pb, s) {
    } else {
      var t := Step(pb, s);
      RunIsFirstStop(pb, t);
      var n := Run(pb, s).iters - s.iters;
      assert Run(pb, s) == Run(pb, t);
      assert StepN(pb, s, n) == StepN(pb, t, n - 1);
      forall k: nat | k < n
        ensures !AccuracyMet(pb, StepN(pb, s, k))
      {
        if k > 0 {
          assert StepN(pb, s, k) == StepN(pb, t, k - 1);
        }
      }
    }
  }

  /**
   * A calibration that passes the check returns the volatility of the first
   * iterate meeting the accuracy test, or of iterate max_iter when none of
   * iterates 0 .. max_iter - 1 does; the warning is raised exactly in the
   * latter case, so always when max_iter is zero.
   */
  lemma CalibrationReturnsFirstAccurateIterate(
    a: Analytics, md: MarketData, option: CallStockOption, ms: MarketState, params: AccuracyParams, k: nat)
    requires CheckParamsForCalibration(a, md, option, ms).Pass?
    requires k <= params.maxIter
    requires k == params.maxIter || AccuracyMet(Problem(a, md, option, ms, params), Iterate(Problem(a, md, option, ms, params), k))
    requires forall j: nat :: j < k ==> !AccuracyMet(Problem(a, md, option, ms, params), Iterate(Problem(a, md, option, ms, params), j))
    ensures CalibrateSpec(a, md, option, ms, params).Ok?
    ensures CalibrateSpec(a, md, option, ms, params).value.model.volatility
         == Iterate(Problem(a, md, option, ms, params), k).vola
    ensures CalibrateSpec(a, md, option, ms, params).value.warning <==>
      forall j: nat :: j < params.maxIter ==> !AccuracyMet(Problem(a, md, option, ms, params), Iterate(Problem(a, md, option, ms, params), j))
  {
    var pb := Problem(a, md, option, ms, params);
    var last := Run(pb, Start(pb));
    RunIsFirstStop(pb, Start(pb));
    var n := last.iters;
    assert last == Iterate(pb, n);
    assert forall j: nat :: j < n ==> !AccuracyMet(pb, Iterate(pb, j));
    // n is the unique index that the requirements on k describe
    assert k < n ==> !AccuracyMet(pb, Iterate(pb, k));
    assert n < k ==> !AccuracyMet(pb, last);
    assert k == n;
  }

  /** Price strictly increasing in the volatility over the admissible range (an assumption, not proved). */
  ghost predicate StrictlyIncreasing(pb: Problem)
  {
    forall x: real, y: real :: VolMin <= x < y <= VolMax ==> PriceAt(pb, x) < PriceAt(pb, y)
  }

  /**
   * If the price is strictly increasing in the volatility, a volatility in
   * the admissible range that reproduces the quote lies in every bracket the
   * loop holds, because each moved bound has its price on its side of the quote.
   */
  lemma RootStaysBracketed(pb: Problem, s: SolverState, root: real)
    requires Inv(pb, s) && StrictlyIncreasing(pb)
    requires VolMin <= root <= VolMax && PriceAt(pb, root) == pb.md.callPrice
    ensures s.lb <= root <= s.ub
  {
  }

  /** Under the same assumption the implied volatility lies in the bracket of every iterate. */
  lemma RootInEveryIterateBracket(pb: Problem, root: real, k: nat)
    requires StrictlyIncreasing(pb)
    requires VolMin <= root <= VolMax && PriceAt(pb, root) == pb.md.callPrice
    ensures Iterate(pb, k).lb <= root <= Iterate(pb, k).ub
  {
    RootStaysBracketed(pb, Iterate(pb, k), root);
  }

  /**
   * A zero quote can pass the check (when S - K * exp(-rT) is negative), and
   * then the relative test never holds, so the calibration always warns.
   */
  lemma ZeroQuoteAlwaysWarns(a: Analytics, md: MarketData, option: CallStockOption, ms: MarketState, params: AccuracyParams)
    requires md.callPrice == 0.0 && CheckParamsForCalibration(a, md, option, ms).Pass?
    ensures CalibrateSpec(a, md, option, ms, params).Ok?
    ensures CalibrateSpec(a, md, option, ms, params).value.warning
  {
  }

  /** An instance of a zero quote that passes the check: a deep out-of-the-money option at zero rate. */
  lemma ZeroQuoteCanPassCheck(a: Analytics)
    requires a.exp(0.0) == 1.0
    ensures CheckParamsForCalibration(a, MarketData(0.0), CallStockOption(200.0, 1.0), MarketState(100.0, 0.0)).Pass?
  {
  }

  /**
   * The argument checks the calibration is exercised on, with a stock at 100
   * and a 5% rate: an expired option, a quote equal to the stock price, and a
   * quote of 4.87 below the lower bound 100 - 100 * exp(-0.05) (about 4.877).
   */
  lemma CalibrationArgumentChecks(a: Analytics, params: AccuracyParams)
    requires a.exp(-0.05) < 0.9513
    ensures CalibrateSpec(a, MarketData(5.0), CallStockOption(100.0, 0.0), MarketState(100.0, 0.05), params)
         == Err(CalibrationTimeNotPositive)
    ensures CalibrateSpec(a, MarketData(100.0), CallStockOption(100.0, 1.0), MarketState(100.0, 0.05), params)
         == Err(CallPriceNotBelowStock)
    ensures CalibrateSpec(a, MarketData(4.87), CallStockOption(100.0, 1.0), MarketState(100.0, 0.05), params)
         == Err(TimeValueNotPositive)
  {
  }
}
