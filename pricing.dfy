/**
 * The BSM price of a European call and its vega. The closed forms are built
 * from erf, exp, log and sqrt over doubles; this model does not interpret
 * them and takes them as parameters instead. What is modelled exactly is the
 * expired-option branch of the price, which is plain arithmetic.
 */
module Pricing {
  import opened BsmTypes

  /**
   * The transcendental parts of the library, left uninterpreted:
   *  - exp: the exponential function of the C library;
   *  - closedForm: S * N(d1) - exp(-rT) * K * N(d2), the BSM price of a call
   *    whose time to expiration is at least epsilon;
   *  - vega: S * sqrt(T) * exp(-d1^2 / 2) / sqrt(2 pi);
   *  - initialGuess: the Brenner-Subrahmanyam seed C / S * sqrt(2 pi) / sqrt(T).
   */
  datatype Analytics = Analytics(
    exp: real -> real,
    closedForm: (CallStockOption, MarketState, ModelParams) -> real,
    vega: (CallStockOption, MarketState, ModelParams) -> real,
    initialGuess: (MarketData, CallStockOption, MarketState) -> real)

  /** std::max: the second argument when the first is less, else the first. */
  function Max(x: real, y: real): (r: real)
    ensures r >= x && r >= y && (r == x || r == y)
  {
    if x < y then y else x
  }

  /** std::min: the second argument when it is less than the first, else the first. */
  function Min(x: real, y: real): (r: real)
    ensures r <= x && r <= y && (r == x || r == y)
  {
    if y < x then y else x
  }

  /**
   * The price of the call. An option whose time to expiration is below
   * epsilon is worth its intrinsic value max(0, S - K), which is never
   * negative; any other option is priced by the closed form.
   */
  function Price(a: Analytics, option: CallStockOption, ms: MarketState, model: ModelParams): (r: real)
    ensures option.timeToExpiration < Epsilon ==>
      r >= 0.0 && r >= ms.stockPrice - option.strikePrice && (r == 0.0 || r == ms.stockPrice - option.strikePrice)
    ensures option.timeToExpiration >= Epsilon ==> r == a.closedForm(option, ms, model)
  {
    if option.timeToExpiration < Epsilon then Max(0.0, ms.stockPrice - option.strikePrice)
    else a.closedForm(option, ms, model)
  }

  /** The vega of the call, wrapped in its own unchecked type. */
  function ModelGrad(a: Analytics, option: CallStockOption, ms: MarketState, model: ModelParams): ModelParamsGrad
  {
    ModelParamsGrad(a.vega(option, ms, model))
  }

  /**
   * The expired-option prices the library is exercised on: strike 50 and
   * strike 150 against a stock at 100, whatever the closed form computes.
   */
  lemma ExpiredPrices(a: Analytics)
    ensures Price(a, CallStockOption(50.0, 0.0), MarketState(100.0, 0.1), ModelParams(0.2)) == 50.0
    ensures Price(a, CallStockOption(150.0, 0.0), MarketState(100.0, 0.1), ModelParams(0.2)) == 0.0
  {
  }
}
