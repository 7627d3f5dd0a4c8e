/** What a backtest run buys: within the order limits, in whole lots, and never on a day of danger. */
module BacktestLimits {
  import Allocation
  import opened Common
  import opened Backtest
  import opened BacktestLedger
  import opened ExitLines

  // ---------------------------------------------------------------- one order

  /** A whole number of lots, at most as many shares as `base`. */
  ghost predicate LotsWithin(quantity: int, base: int, unit: int) {
    unit > 0 && quantity <= base && exists lots :: quantity == lots * unit
  }

  lemma WholeLots(lots: int, unit: int)
    requires unit > 0
    ensures LotsWithin(lots * unit, lots * unit, unit)
  {}

  /** Sizing by volatility only lowers a quantity of whole lots, and keeps it one. */
  lemma AdjustedIsWithin(base: int, level: Level, unit: int, cautionRatio: real, dangerBuysMinimum: bool)
    requires LotsWithin(base, base, unit) && base >= 0
    ensures LotsWithin(AdjustQuantity(base, level, unit, cautionRatio, dangerBuysMinimum), base, unit)
  {
    assert 0 * unit == 0 && 1 * unit == unit;
    if level == Caution && base >= unit {
      var lots := (base as real * cautionRatio).Floor / unit;
      assert LotsWithin(lots * unit, lots * unit, unit);
    }
  }

  lemma SizedIsWithin(rules: Rules, base: int, bars: seq<DailyBar>)
    requires base > 0 && LotsWithin(base, base, rules.orderUnit)
    ensures LotsWithin(AdjustedQuantity(rules, base, bars), base, rules.orderUnit)
  {
    if rules.sizing && bars != [] && rules.assess(bars).Some? {
      AdjustedIsWithin(base, rules.assess(bars).value.level, rules.orderUnit, rules.cautionLotRatio,
                       rules.dangerBuysMinimum);
    }
  }

  lemma NothingFromNothing(rules: Rules, bars: seq<DailyBar>)
    ensures AdjustedQuantity(rules, 0, bars) <= 0
  {}

  lemma BaseFitsBudget(price: real, budget: real, unit: int)
    requires BuyQuantity(price, budget, unit) > 0
    ensures
      var base := BuyQuantity(price, budget, unit);
      price > 0.0 && Amount(price, base) <= budget && LotsWithin(base, base, unit)
  {
    Allocation.WholeUnitsAreMaximal(budget, price, unit);
    WholeLots(Allocation.Lots(budget, price * unit as real), unit);
  }

  lemma LessFitsToo(price: real, quantity: int, base: int, budget: real)
    requires price > 0.0 && quantity <= base && Amount(price, base) <= budget
    ensures Amount(price, quantity) <= budget
  {
    ScaleKeepsOrder(quantity as real, base as real, price);
  }

  /** The order of a signal costs no more at the signal's price than the budget of its slot, in whole lots. */
  lemma OrderFitsBudget(rules: Rules, m: Market, a: Account, date: Date, tick: Tick)
    requires rules.targetPositions.Some? && OrderQuantity(rules, m, a, date, tick) > 0
    ensures
      var budget := PositionBudget(rules, a.cash, OpenPositions(a));
      var quantity := OrderQuantity(rules, m, a, date, tick);
      Amount(tick.price, quantity) <= budget && LotsWithin(quantity, quantity, rules.orderUnit)
  {
    var budget, bars := PositionBudget(rules, a.cash, OpenPositions(a)), BarsBefore(m, tick.symbol, date);
    var base := BuyQuantity(tick.price, budget, rules.orderUnit);
    NothingFromNothing(rules, bars);
    BuysOrNothing(tick.price, budget, rules.orderUnit);
    BaseFitsBudget(tick.price, budget, rules.orderUnit);
    SizedIsWithin(rules, base, bars);
    LessFitsToo(tick.price, AdjustedQuantity(rules, base, bars), base, budget);
  }

  lemma BuysOrNothing(price: real, budget: real, unit: int)
    ensures BuyQuantity(price, budget, unit) >= 0
  {
    if price > 0.0 && budget > 0.0 && unit > 0 {
      Allocation.WholeUnitsAreMaximal(budget, price, unit);
    }
  }

  // ---------------------------------------------------------------- all purchases of a run

  ghost predicate WithinLimit(amount: real, limit: Option<real>) {
    limit.Some? ==> amount <= limit.value
  }

  /** Once regimes are known, a date without one forbids purchases like a date of danger. */
  ghost predicate Forbidden(m: Market, date: Date) {
    m.regimes.Some? && (date !in m.regimes.value || m.regimes.value[date] == DangerMarket)
  }

  /** A purchase as the settings and the regime of its day allow it. */
  ghost predicate Allowed(rules: Rules, m: Market, purchase: Signal) {
    var amount := Amount(purchase.signalPrice, purchase.quantity);
    && purchase.quantity > 0
    && !Forbidden(m, purchase.date)
    && (rules.targetPositions.Some? ==>
          && WithinLimit(amount, rules.maxOrderAmount) && WithinLimit(amount, rules.apiSoftLimit)
          && LotsWithin(purchase.quantity, purchase.quantity, rules.orderUnit))
  }

  ghost predicate PurchasesAllowed(rules: Rules, m: Market, signals: seq<Signal>) {
    forall i :: 0 <= i < |signals| && signals[i].side == Buy ==> Allowed(rules, m, signals[i])
  }

  ghost function Allowing(rules: Rules, m: Market): Account -> bool {
    (a: Account) => PurchasesAllowed(rules, m, a.log.signals)
  }

  lemma OrderIsAllowed(rules: Rules, m: Market, a: Account, date: Date, tick: Tick)
    requires OrderQuantity(rules, m, a, date, tick) > 0 && RegimeOn(m, date) != DangerMarket
    ensures
      var quantity, price := OrderQuantity(rules, m, a, date, tick), ExecutionPrice(rules, Buy, tick);
      Allowed(rules, m, BuySignal(rules, date, tick, quantity, price, Fee(rules, price, quantity)))
  {
    if rules.targetPositions.Some? {
      OrderFitsBudget(rules, m, a, date, tick);
    }
  }

  lemma TryBuyIsAllowed(rules: Rules, m: Market, a: Account, date: Date, tick: Tick)
    requires PurchasesAllowed(rules, m, a.log.signals)
    ensures PurchasesAllowed(rules, m, TryBuy(rules, m, a, date, tick).log.signals)
  {
    if TryBuy(rules, m, a, date, tick) != a {
      OrderIsAllowed(rules, m, a, date, tick);
    }
  }

  lemma PurchasesStayAllowed(rules: Rules, m: Market, date: Date)
    ensures Keeps(rules, m, date, Allowing(rules, m), _ => true)
  {
    forall a: Account, tick: Tick | PurchasesAllowed(rules, m, a.log.signals)
      ensures PurchasesAllowed(rules, m, TryBuy(rules, m, a, date, tick).log.signals)
    {
      TryBuyIsAllowed(rules, m, a, date, tick);
    }
  }

  /** At every moment of every run, each purchase recorded so far was of a positive quantity and on a day that is
      not one of danger; with a target of positions it was of whole lots and within both order limits. */
  lemma {:induction false} EveryPurchaseIsAllowed(rules: Rules, m: Market, start: real, dates: seq<Date>, date: Date,
                                                  t: Time)
    requires t <= END_OF_DAY
    ensures
      var run := RunDates(rules, m, start, dates);
      && PurchasesAllowed(rules, m, run.account.log.signals)
      && PurchasesAllowed(rules, m, DayUntil(rules, m, date, run.account, run.feed, t).account.log.signals)
  {
    forall d | d in dates + [date] ensures Keeps(rules, m, d, Allowing(rules, m), _ => true) {
      PurchasesStayAllowed(rules, m, d);
    }
    RunAndDayKeep(rules, m, start, dates, date, t, Allowing(rules, m), _ => true);
    var run := RunDates(rules, m, start, dates);
    assert Allowing(rules, m)(run.account);
    assert Allowing(rules, m)(DayUntil(rules, m, date, run.account, run.feed, t).account);
  }
}
