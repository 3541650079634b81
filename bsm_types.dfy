/**
 * The immutable value types of the BSM library and their validating
 * constructors. Each C++ class has private fields and const getters only,
 * so each becomes a datatype; a constructor that throws on bad input becomes
 * a function returning a Result, with the thrown exception as the failure.
 */
module BsmTypes {
  import opened Wrappers

  /** The machine epsilon of a double, 2^-52. */
  const Epsilon: real := 1.0 / 4503599627370496.0

  /** A C++ `unsigned` (32 bits). */
  type Unsigned = x: int | 0 <= x < 0x1_0000_0000

  /** Tolerances and iteration budget of a calibration; an unvalidated aggregate. */
  datatype AccuracyParams = AccuracyParams(atol: real, rtol: real, maxIter: Unsigned)

  /** Option terms: strike price and time to expiration (in years). */
  datatype CallStockOption = CallStockOption(strikePrice: real, timeToExpiration: real)
  {
    /** What the constructor guarantees of every object it produces. */
    predicate Valid() { strikePrice >= Epsilon && timeToExpiration >= 0.0 }
  }

  /** Stock price and interest rate; the rate may have any sign. */
  datatype MarketState = MarketState(stockPrice: real, interestRate: real)
  {
    predicate Valid() { stockPrice >= 0.0 }
  }

  /** The observed market price of the call. */
  datatype MarketData = MarketData(callPrice: real)
  {
    predicate Valid() { callPrice >= 0.0 }
  }

  /** The model parameter being calibrated: the volatility. */
  datatype ModelParams = ModelParams(volatility: real)
  {
    predicate Valid() { volatility >= Epsilon }
  }

  /**
   * The derivative of the price with respect to the volatility (vega). A
   * distinct type from ModelParams whose constructor checks nothing, so any
   * real, zero and negative ones included, is a ModelParamsGrad.
   */
  datatype ModelParamsGrad = ModelParamsGrad(volatility: real)

  /** The invalid-argument exceptions of the library, one per guard. */
  datatype Error =
    | StrikeNotPositive            // CallStockOption: strike below epsilon
    | TimeNegative                 // CallStockOption: negative time to expiration
    | StockPriceNegative           // MarketState: negative stock price
    | CallPriceNegative            // MarketData: negative call price
    | VolatilityNotPositive        // ModelParams: volatility below epsilon
    | CalibrationTimeNotPositive   // calibration: time to expiration below epsilon
    | CallPriceNotBelowStock       // calibration: call price at or above stock price
    | TimeValueNotPositive         // calibration: call price at or below the lower bound

  function NewCallStockOption(strikePrice: real, timeToExpiration: real): (r: Result<CallStockOption, Error>)
    ensures r.Ok? <==> CallStockOption(strikePrice, timeToExpiration).Valid()
    ensures r.Ok? ==> r.value == CallStockOption(strikePrice, timeToExpiration)
    ensures r.Err? ==> r.error == if strikePrice < Epsilon then StrikeNotPositive else TimeNegative
  {
    if strikePrice < Epsilon then Err(StrikeNotPositive)
    else if timeToExpiration < 0.0 then Err(TimeNegative)
    else Ok(CallStockOption(strikePrice, timeToExpiration))
  }

  function NewMarketState(stockPrice: real, interestRate: real): (r: Result<MarketState, Error>)
    ensures r.Ok? <==> MarketState(stockPrice, interestRate).Valid()
    ensures r.Ok? ==> r.value == MarketState(stockPrice, interestRate)
    ensures r.Err? ==> r.error == StockPriceNegative
  {
    if stockPrice < 0.0 then Err(StockPriceNegative)
    else Ok(MarketState(stockPrice, interestRate))
  }

  function NewMarketData(callPrice: real): (r: Result<MarketData, Error>)
    ensures r.Ok? <==> MarketData(callPrice).Valid()
    ensures r.Ok? ==> r.value == MarketData(callPrice)
    ensures r.Err? ==> r.error == CallPriceNegative
  {
    if callPrice < 0.0 then Err(CallPriceNegative)
    else Ok(MarketData(callPrice))
  }

  function NewModelParams(volatility: real): (r: Result<ModelParams, Error>)
    ensures r.Ok? <==> ModelParams(volatility).Valid()
    ensures r.Ok? ==> r.value == ModelParams(volatility)
    ensures r.Err? ==> r.error == VolatilityNotPositive
  {
    if volatility < Epsilon then Err(VolatilityNotPositive)
    else Ok(ModelParams(volatility))
  }

  /**
   * The boundary cases the constructors are exercised on: a zero strike and
   * a negative time or price are refused; a zero time, a zero stock price
   * with a negative rate and a volatility of exactly epsilon are accepted.
   */
  lemma ConstructorBoundaries()
    ensures NewCallStockOption(0.0, 0.0) == Err(StrikeNotPositive)
    ensures NewCallStockOption(100.0, -1.0) == Err(TimeNegative)
    ensures NewCallStockOption(100.0, 0.0) == Ok(CallStockOption(100.0, 0.0))
    ensures NewMarketState(-1.0, 0.0) == Err(StockPriceNegative)
    ensures NewMarketState(0.0, -0.2) == Ok(MarketState(0.0, -0.2))
    ensures NewMarketData(-1.0) == Err(CallPriceNegative)
    ensures NewModelParams(0.0) == Err(VolatilityNotPositive)
    ensures NewModelParams(Epsilon) == Ok(ModelParams(Epsilon))
  {
  }
}
