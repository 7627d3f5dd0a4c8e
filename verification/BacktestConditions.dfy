/** What makes a backtest sell and buy, and at which price, in terms of prices and settings. */
module BacktestConditions {
  import opened Common
  import opened ExitLines
  import opened Backtest

  // ---------------------------------------------------------------- stops

  /** A price at or below the trailing line: the highest price less the range times the multiplier that the program
      resolves for it. */
  ghost predicate AtTrailingLine(rules: Rules, bars: seq<DailyBar>, entry: real, high: real, price: real) {
    && rules.atrStop && bars != [] && rules.assess(bars).Some?
    && var a := rules.assess(bars).value;
       var multiplier := ResolveExitMultiplier(high - entry, a.atr, a.level, rules.exitSettings);
       multiplier.Ok? && price <= high - a.atr * multiplier.value
  }

  /** A price at or below the average cost less the loss allowed. */
  ghost predicate AtLossLimit(rules: Rules, cost: real, price: real) {
    rules.stopLoss > 0.0 && price <= cost * (1.0 - rules.stopLoss)
  }

  /** Exit settings that the program accepts, and ranges that are not negative. */
  ghost predicate SoundExits(rules: Rules) {
    && Accepted(rules.exitSettings)
    && forall bars :: rules.assess(bars).Some? ==> rules.assess(bars).value.atr >= 0.0
  }

  lemma NoRangeNoOffset(atr: real, multiplier: real)
    requires atr == 0.0
    ensures atr * multiplier == 0.0
  {}

  lemma LineIsResolved(t: Trail, high: real)
    requires Accepted(t.settings) && t.atr >= 0.0
    ensures
      var multiplier := ResolveExitMultiplier(high - t.entry, t.atr, t.level, t.settings);
      multiplier.Ok? && LineFor(t, high) == high - t.atr * multiplier.value
  {
    if t.atr > 0.0 {
      ExitLineIsLine(t, high);
    } else {
      NoRangeNoOffset(t.atr, Lock(t));
      NoRangeNoOffset(t.atr, Stop(t));
    }
  }

  lemma TrailingLineIff(rules: Rules, bars: seq<DailyBar>, entry: real, high: real, price: real)
    requires SoundExits(rules) && rules.assess(bars).Some?
    ensures rules.atrStop && bars != [] && AtOrBelowLine(ExitTrail(rules, entry, rules.assess(bars).value), high, price)
       <==> AtTrailingLine(rules, bars, entry, high, price)
  {
    LineIsResolved(ExitTrail(rules, entry, rules.assess(bars).value), high);
  }

  // ---------------------------------------------------------------- signals

  /** A price that is far enough from the middle of its band. */
  ghost predicate Decisive(rules: Rules, band: Band, price: real) {
    var middle := (band.lower + band.upper) / 2.0;
    var distance := Abs(price - middle) / middle;
    && (rules.noiseBand > 0.0 ==> distance >= rules.noiseBand)
    && (rules.trendStrength > 0.0 ==> distance >= rules.trendStrength)
  }

  /** There are earlier prices enough for both indicators, and the price is decisive. */
  ghost predicate Judged(rules: Rules, previous: seq<real>, price: real) {
    && |previous| >= rules.minimumCloses && rules.priceLimit(previous).Some? && rules.rsi(previous).Some?
    && Decisive(rules, rules.priceLimit(previous).value, price)
  }

  /** A price below its band with little strength. */
  ghost predicate AsksToSell(rules: Rules, previous: seq<real>, price: real) {
    && Judged(rules, previous, price)
    && price <= rules.priceLimit(previous).value.lower * rules.buyThreshold
    && rules.rsi(previous).value <= rules.exitThreshold
  }

  /** A price above its band with much strength, of which more is asked unless the regime is normal. */
  ghost predicate AsksToBuy(rules: Rules, previous: seq<real>, price: real, normal: bool) {
    && Judged(rules, previous, price) && !AsksToSell(rules, previous, price)
    && price >= rules.priceLimit(previous).value.upper * rules.sellThreshold
    && rules.rsi(previous).value >= if normal then rules.entryThreshold else rules.cautionThreshold
  }

  lemma SignalIff(rules: Rules, previous: seq<real>, price: real, regime: Regime)
    ensures SignalFrom(rules, previous, price, regime) == Some(Sell) <==> AsksToSell(rules, previous, price)
    ensures SignalFrom(rules, previous, price, regime) == Some(Buy) <==>
            AsksToBuy(rules, previous, price, regime == NormalMarket)
  {}

  /** A date of normal regime, as all are when regimes are not known at all. */
  ghost predicate Calm(m: Market, date: Date) {
    m.regimes.Some? ==> date in m.regimes.value && m.regimes.value[date] == NormalMarket
  }

  // ---------------------------------------------------------------- execution

  /** The price of a limit order is the quoted one, that of a market order the delayed one, raised by the slippage for
      a purchase and lowered by it for a sale. */
  ghost predicate PricedFrom(rules: Rules, side: Side, quoted: real, delayed: real, price: real) {
    && (rules.limitOrders ==> price == quoted)
    && (!rules.limitOrders && side == Buy ==> price - delayed == delayed * rules.slippageBps / 10_000.0)
    && (!rules.limitOrders && side == Sell ==> delayed - price == delayed * rules.slippageBps / 10_000.0)
  }

  /** The price of the bar that is the delay later, or the last one of the day. */
  ghost predicate IsDelayed(rules: Rules, tick: Tick, delayed: real) {
    if tick.index + rules.delay < |tick.prices| then delayed == tick.prices[tick.index + rules.delay]
    else delayed == tick.prices[|tick.prices| - 1]
  }

  lemma SlippageOf(price: real, bps: real)
    ensures price * (1.0 + bps / 10_000.0) - price == price * bps / 10_000.0
    ensures price - price * (1.0 - bps / 10_000.0) == price * bps / 10_000.0
  {}

  lemma PriceFromSlippage(price: real, delayed: real, bps: real)
    ensures price - delayed == delayed * bps / 10_000.0 ==> price == delayed * (1.0 + bps / 10_000.0)
    ensures delayed - price == delayed * bps / 10_000.0 ==> price == delayed * (1.0 - bps / 10_000.0)
  {}

  lemma PriceIff(rules: Rules, side: Side, tick: Tick, delayed: real, price: real)
    requires IsDelayed(rules, tick, delayed)
    ensures delayed == DelayedPrice(rules, tick)
    ensures price == ExecutionPrice(rules, side, tick) <==> PricedFrom(rules, side, tick.price, delayed, price)
  {
    SlippageOf(delayed, rules.slippageBps);
    PriceFromSlippage(price, delayed, rules.slippageBps);
  }

  /** How the order of a signal was executed at a quote. */
  ghost predicate Executed(rules: Rules, tick: Tick, x: Signal) {
    && x.signalPrice == tick.price && x.time == tick.time && IsDelayed(rules, tick, x.delayedPrice)
    && PricedFrom(rules, x.side, tick.price, x.delayedPrice, x.price)
    && x.fee == x.price * x.quantity as real * rules.feeRate
  }

  lemma ExecutedIff(rules: Rules, tick: Tick, x: Signal)
    ensures Executed(rules, tick, x) <==>
      && x.signalPrice == tick.price && x.time == tick.time && x.delayedPrice == DelayedPrice(rules, tick)
      && x.price == ExecutionPrice(rules, x.side, tick) && x.fee == Fee(rules, x.price, x.quantity)
  {
    if IsDelayed(rules, tick, x.delayedPrice) {
      PriceIff(rules, x.side, tick, x.delayedPrice, x.price);
    }
  }
}
