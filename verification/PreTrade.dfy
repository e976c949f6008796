/** The stateless pre-trade risk gate. */
module PreTrade {
  import opened Orders
  import opened AdmissionSpec

  datatype Reason =
    | InvalidQuantityOrPrice | NegativeInput | NegativeLimit | InvalidSide | OrderLimit | PortfolioLimit
    | SymbolLimit | DailyLossLimit | SpreadLimit | VenueUnhealthy

  function When(condition: bool, reason: Reason): seq<Reason> {
    if condition then [reason] else []
  }

  function Notional(o: Order, price: real): real { o.quantity * price }

  predicate NonNegativeLimits(l: Limits) {
    l.maxOrder >= 0.0 && l.maxPortfolio >= 0.0 && l.maxSymbol >= 0.0 && l.maxDailyLoss >= 0.0 && l.maxSpread >= 0.0
  }

  /** All conditions hold at once. */
  predicate Admissible(o: Order, price: real, portfolio: real, symbol: real, dailyLoss: real, spread: real,
                       limits: Limits, healthy: bool) {
    && o.quantity > 0.0 && price > 0.0
    && portfolio >= 0.0 && symbol >= 0.0 && spread >= 0.0 && NonNegativeLimits(limits)
    && o.side in {Buy, Sell}
    && Notional(o, price) <= limits.maxOrder
    && portfolio + Notional(o, price) <= limits.maxPortfolio
    && symbol + Notional(o, price) <= limits.maxSymbol
    && 0.0 <= dailyLoss < limits.maxDailyLoss
    && spread <= limits.maxSpread && healthy
  }

  /** What is wrong with the inputs, and which limits are broken. */
  function BadInputs(o: Order, price: real, portfolio: real, symbol: real, dailyLoss: real, spread: real,
                     limits: Limits): seq<Reason> {
    When(o.quantity <= 0.0 || price <= 0.0, InvalidQuantityOrPrice)
    + When(portfolio < 0.0 || symbol < 0.0 || dailyLoss < 0.0 || spread < 0.0, NegativeInput)
    + When(!NonNegativeLimits(limits), NegativeLimit)
    + When(o.side !in {Buy, Sell}, InvalidSide)
  }

  function BrokenLimits(o: Order, price: real, portfolio: real, symbol: real, dailyLoss: real, spread: real,
                        limits: Limits, healthy: bool): seq<Reason> {
    When(Notional(o, price) > limits.maxOrder, OrderLimit)
    + When(portfolio + Notional(o, price) > limits.maxPortfolio, PortfolioLimit)
    + When(symbol + Notional(o, price) > limits.maxSymbol, SymbolLimit)
    + When(dailyLoss >= limits.maxDailyLoss, DailyLossLimit)
    + When(spread > limits.maxSpread, SpreadLimit)
    + When(!healthy, VenueUnhealthy)
  }

  /** evaluate: collect every reason; the order is allowed when there is none. */
  function Evaluate(o: Order, price: real, portfolio: real, symbol: real, dailyLoss: real, spread: real, limits: Limits,
                    healthy: bool): (reasons: seq<Reason>)
    ensures reasons == [] <==> Admissible(o, price, portfolio, symbol, dailyLoss, spread, limits, healthy)
  {
    BadInputs(o, price, portfolio, symbol, dailyLoss, spread, limits)
    + BrokenLimits(o, price, portfolio, symbol, dailyLoss, spread, limits, healthy)
  }
}
