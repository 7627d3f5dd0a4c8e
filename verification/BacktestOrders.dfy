/** When a backtest buys and how much: the largest number of lots that the free slot and the order limits pay for, as
    the volatility allows, and only if the cash covers the execution with its fee. */
module BacktestOrders {
  import opened Common
  import opened ExitLines
  import Allocation
  import opened Backtest
  import opened BacktestLedger
  import opened BacktestLimits
  import opened BacktestPositions
  import opened BacktestConditions
  import opened BacktestStops

  // ---------------------------------------------------------------- the quantity

  /** An amount within the share of a free slot and both limits. */
  ghost predicate Payable(rules: Rules, cash: real, open: int, amount: real)
    requires rules.targetPositions.Some?
  {
    var free := rules.targetPositions.value - open;
    && (if free > 1 then amount * free as real <= cash else amount <= cash)
    && (rules.maxOrderAmount.Some? ==> amount <= rules.maxOrderAmount.value)
    && (rules.apiSoftLimit.Some? ==> amount <= rules.apiSoftLimit.value)
  }

  ghost predicate Fits(rules: Rules, a: Account, price: real, quantity: int)
    requires rules.targetPositions.Some?
  {
    Payable(rules, a.cash, |OpenSymbols(a.holdings)|, price * quantity as real)
  }

  /** The most lots that fit, or the fixed quantity of a run without a target of positions. */
  ghost predicate MostLots(rules: Rules, a: Account, price: real, base: int) {
    if rules.targetPositions.None? then base == rules.quantityPerTrade
    else if price <= 0.0 || rules.orderUnit <= 0 then base == 0
    else
      && base >= 0 && (exists lots :: base == lots * rules.orderUnit)
      && (base > 0 ==> Fits(rules, a, price, base))
      && !Fits(rules, a, price, base + rules.orderUnit)
  }

  /** At the level of caution: the most lots within the reduced quantity, but at least one. */
  ghost predicate CautionLots(base: int, unit: int, within: real, quantity: int) {
    if base < unit || unit <= 0 then quantity == 0
    else
      && unit <= quantity <= base && (exists lots :: quantity == lots * unit)
      && (quantity > unit ==> quantity as real <= within) && within < (quantity + unit) as real
  }

  /** What a level leaves of a quantity, of which `within` is the reduced form. */
  ghost predicate SizedAt(level: Level, base: int, unit: int, within: real, dangerBuysMinimum: bool, quantity: int) {
    match level
    case Normal => quantity == base
    case Caution => CautionLots(base, unit, within, quantity)
    case Danger => quantity == if dangerBuysMinimum && base >= unit then unit else 0
  }

  ghost predicate SizedTo(rules: Rules, bars: seq<DailyBar>, base: int, quantity: int) {
    if !rules.sizing || bars == [] || rules.assess(bars).None? then quantity == base
    else
      SizedAt(rules.assess(bars).value.level, base, rules.orderUnit, base as real * rules.cautionLotRatio,
              rules.dangerBuysMinimum, quantity)
  }

  /** The quantity that a signal to buy asks for. */
  ghost predicate Asked(rules: Rules, m: Market, a: Account, date: Date, tick: Tick, quantity: int) {
    exists base :: MostLots(rules, a, tick.price, base)
                   && SizedTo(rules, BarsBefore(m, tick.symbol, date), base, quantity)
  }

  ghost function OpenIn(order: seq<Symbol>, holdings: map<Symbol, int>): set<Symbol> {
    set s | s in order && Get(holdings, s, 0) > 0
  }

  lemma OneMoreKey(order: seq<Symbol>, holdings: map<Symbol, int>, last: Symbol)
    requires last !in order
    ensures OpenIn(order + [last], holdings) ==
            OpenIn(order, holdings) + if Get(holdings, last, 0) > 0 then {last} else {}
    ensures last !in OpenIn(order, holdings)
  {
    assert forall s :: s in order + [last] <==> s in order || s == last;
  }

  lemma {:induction false} OpenIsCount(order: seq<Symbol>, holdings: map<Symbol, int>)
    requires Distinct(order)
    ensures OpenAmong(order, holdings) == |OpenIn(order, holdings)|
  {
    if order == [] {
      assert OpenIn(order, holdings) == {};
    } else {
      var rest, last := order[..|order| - 1], order[|order| - 1];
      OpenIsCount(rest, holdings);
      OneMoreKey(rest, holdings, last);
      assert rest + [last] == order;
    }
  }

  /** The positions counted are the open ones. */
  lemma OpenPositionsAreCounted(a: Account)
    requires KeysSound(a)
    ensures OpenPositions(a) == |OpenSymbols(a.holdings)|
  {
    OpenIsCount(a.order, a.holdings);
    assert OpenSymbols(a.holdings) == OpenIn(a.order, a.holdings);
  }

  lemma ShareIff(cash: real, slots: real, amount: real)
    requires slots >= 1.0
    ensures amount <= cash / slots <==> amount * slots <= cash
  {
    var share := cash / slots;
    assert share * slots == cash;
    if amount <= share {
      ScaleKeepsOrder(amount, share, slots);
    } else {
      ScaleIsStrict(share, amount, slots);
    }
  }

  lemma CappedIff(budget: real, limit: Option<real>, amount: real)
    ensures amount <= Capped(budget, limit) <==> amount <= budget && (limit.Some? ==> amount <= limit.value)
  {}

  lemma BudgetIff(rules: Rules, cash: real, open: nat, amount: real)
    requires rules.targetPositions.Some?
    ensures amount <= PositionBudget(rules, cash, open) <==> Payable(rules, cash, open, amount)
  {
    var free := rules.targetPositions.value - open;
    var slots := if free > 1 then free else 1;
    ShareIff(cash, slots as real, amount);
    CappedIff(cash / slots as real, rules.maxOrderAmount, amount);
    CappedIff(Capped(cash / slots as real, rules.maxOrderAmount), rules.apiSoftLimit, amount);
  }

  lemma FitsIff(rules: Rules, a: Account, price: real, quantity: int)
    requires KeysSound(a) && rules.targetPositions.Some?
    ensures Fits(rules, a, price, quantity) <==>
            Amount(price, quantity) <= PositionBudget(rules, a.cash, OpenPositions(a))
  {
    OpenPositionsAreCounted(a);
    BudgetIff(rules, a.cash, OpenPositions(a), Amount(price, quantity));
  }

  lemma PriceOfUnit(price: real, unit: int)
    requires price > 0.0 && unit > 0
    ensures Amount(price, unit) > 0.0 && Amount(price, 0) == 0.0
  {
    ScaleIsStrict(0.0, unit as real, price);
  }

  lemma MostWithin(price: real, budget: real, unit: int)
    requires price > 0.0 && unit > 0
    ensures
      var base := BuyQuantity(price, budget, unit);
      && base >= 0 && (exists lots :: base == lots * unit)
      && (base > 0 ==> Amount(price, base) <= budget) && !(Amount(price, base + unit) <= budget)
  {
    var base := BuyQuantity(price, budget, unit);
    PriceOfUnit(price, unit);
    if budget > 0.0 {
      Allocation.WholeUnitsAreMaximal(budget, price, unit);
      assert base == Allocation.Lots(budget, price * unit as real) * unit;
    } else {
      assert base == 0 * unit;
    }
  }

  lemma BaseIsMost(rules: Rules, a: Account, price: real)
    requires KeysSound(a) && rules.targetPositions.Some?
    ensures MostLots(rules, a, price,
                     BuyQuantity(price, PositionBudget(rules, a.cash, OpenPositions(a)), rules.orderUnit))
  {
    var budget, unit := PositionBudget(rules, a.cash, OpenPositions(a)), rules.orderUnit;
    var base := BuyQuantity(price, budget, unit);
    if price > 0.0 && unit > 0 {
      FitsIff(rules, a, price, base);
      FitsIff(rules, a, price, base + unit);
      MostWithin(price, budget, unit);
    }
  }

  lemma WholeLotsWithin(x: real, unit: int)
    requires unit > 0
    ensures
      var reduced := x.Floor / unit * unit;
      reduced as real <= x < (reduced + unit) as real
  {
    var whole := x.Floor;
    assert whole == whole / unit * unit + whole % unit;
  }

  /** The choice between the reduced quantity and one lot. */
  lemma AtLeastOneLot(base: int, unit: int, within: real, reduced: int)
    requires base >= unit > 0
    requires reduced as real <= within < (reduced + unit) as real && within <= base as real
    ensures
      var atLeast := if reduced > unit then reduced else unit;
      && unit <= atLeast <= base && (atLeast > unit ==> atLeast as real <= within)
      && within < (atLeast + unit) as real
  {}

  lemma RatioShrinks(x: real, ratio: real)
    requires x >= 0.0 && ratio <= 1.0
    ensures x * ratio <= x
  {
    ScaleKeepsOrder(ratio, 1.0, x);
  }

  lemma CautionLotsFrom(base: int, unit: int, within: real, lots: int)
    requires base >= unit > 0 && within <= base as real && lots == within.Floor / unit
    ensures
      var quantity := if lots * unit > unit then lots * unit else unit;
      CautionLots(base, unit, within, quantity) && quantity <= base
  {
    WholeLotsWithin(within, unit);
    AtLeastOneLot(base, unit, within, lots * unit);
    OneLot(unit);
  }

  lemma OneLot(unit: int)
    ensures unit == 1 * unit
  {}

  lemma AdjustsAtCaution(base: int, unit: int, ratio: real, dangerBuysMinimum: bool, within: real, reduced: int)
    requires base >= unit > 0 && within == base as real * ratio && reduced == within.Floor / unit * unit
    ensures
      var atLeast := if reduced > unit then reduced else unit;
      AdjustQuantity(base, Caution, unit, ratio, dangerBuysMinimum) == if atLeast < base then atLeast else base
  {}

  lemma CautionIsSized(base: int, unit: int, ratio: real, dangerBuysMinimum: bool, within: real)
    requires within == base as real * ratio && (base >= unit > 0 ==> within <= base as real)
    ensures CautionLots(base, unit, within, AdjustQuantity(base, Caution, unit, ratio, dangerBuysMinimum))
  {
    if base >= unit > 0 {
      var reduced := within.Floor / unit * unit;
      CautionLotsFrom(base, unit, within, within.Floor / unit);
      AdjustsAtCaution(base, unit, ratio, dangerBuysMinimum, within, reduced);
    }
  }

  lemma LevelSizes(level: Level, base: int, unit: int, ratio: real, dangerBuysMinimum: bool, within: real)
    requires within == base as real * ratio && (base >= unit > 0 ==> within <= base as real)
    ensures SizedAt(level, base, unit, within, dangerBuysMinimum,
                    AdjustQuantity(base, level, unit, ratio, dangerBuysMinimum))
  {
    if level == Caution {
      CautionIsSized(base, unit, ratio, dangerBuysMinimum, within);
    }
  }

  lemma AdjustedIsSized(rules: Rules, bars: seq<DailyBar>, base: int)
    requires rules.cautionLotRatio <= 1.0
    ensures SizedTo(rules, bars, base, AdjustedQuantity(rules, base, bars))
  {
    if rules.sizing && bars != [] && rules.assess(bars).Some? {
      if base >= rules.orderUnit > 0 {
        RatioShrinks(base as real, rules.cautionLotRatio);
      }
      LevelSizes(rules.assess(bars).value.level, base, rules.orderUnit, rules.cautionLotRatio, rules.dangerBuysMinimum,
                 base as real * rules.cautionLotRatio);
    }
  }

  /** The quantity of an order is the one asked for. */
  lemma OrderIsAsked(rules: Rules, m: Market, a: Account, date: Date, tick: Tick)
    requires KeysSound(a) && rules.cautionLotRatio <= 1.0
    ensures Asked(rules, m, a, date, tick, OrderQuantity(rules, m, a, date, tick))
  {
    var base := if rules.targetPositions.Some?
                then BuyQuantity(tick.price, PositionBudget(rules, a.cash, OpenPositions(a)), rules.orderUnit)
                else rules.quantityPerTrade;
    if rules.targetPositions.Some? {
      BaseIsMost(rules, a, tick.price);
    }
    AdjustedIsSized(rules, BarsBefore(m, tick.symbol, date), base);
  }

  // ---------------------------------------------------------------- there is only one

  lemma LotsDiffer(x: int, y: int, unit: int)
    requires unit > 0 && x < y
    ensures x * unit + unit <= y * unit
  {
    var more := y - x - 1;
    assert more * unit >= 0;
    assert y * unit == x * unit + unit + more * unit;
  }

  lemma MostIsUnique(rules: Rules, a: Account, price: real, base: int, other: int)
    requires MostLots(rules, a, price, base) && MostLots(rules, a, price, other) && base <= other
    ensures base == other
  {
    if rules.targetPositions.Some? && price > 0.0 && rules.orderUnit > 0 && base < other {
      var x :| base == x * rules.orderUnit;
      var y :| other == y * rules.orderUnit;
      MoreLots(x, y, rules.orderUnit);
      LotsDiffer(x, y, rules.orderUnit);
      FewerFit(rules, a, price, base + rules.orderUnit, other);
    }
  }

  lemma MoreLots(x: int, y: int, unit: int)
    requires unit > 0 && x * unit < y * unit
    ensures x < y
  {}

  lemma FewerFit(rules: Rules, a: Account, price: real, fewer: int, quantity: int)
    requires rules.targetPositions.Some? && price > 0.0 && fewer <= quantity && Fits(rules, a, price, quantity)
    ensures Fits(rules, a, price, fewer)
  {
    ScaleKeepsOrder(fewer as real, quantity as real, price);
    LessIsPayable(rules, a.cash, |OpenSymbols(a.holdings)|, price * fewer as real, price * quantity as real);
  }

  lemma LessIsPayable(rules: Rules, cash: real, open: int, less: real, amount: real)
    requires rules.targetPositions.Some? && less <= amount && Payable(rules, cash, open, amount)
    ensures Payable(rules, cash, open, less)
  {
    var free := rules.targetPositions.value - open;
    if free > 1 {
      ScaleKeepsOrder(less, amount, free as real);
    }
  }

  lemma CautionIsUnique(base: int, unit: int, within: real, quantity: int, other: int)
    requires CautionLots(base, unit, within, quantity) && CautionLots(base, unit, within, other) && quantity <= other
    ensures quantity == other
  {
    if base >= unit > 0 && quantity < other {
      assert (other as real) < (quantity + unit) as real;
      var x :| quantity == x * unit;
      var y :| other == y * unit;
      MoreLots(x, y, unit);
      LotsDiffer(x, y, unit);
    }
  }

  /** At most one quantity is asked for. */
  lemma AskedIsUnique(rules: Rules, m: Market, a: Account, date: Date, tick: Tick, quantity: int, other: int)
    requires Asked(rules, m, a, date, tick, quantity) && Asked(rules, m, a, date, tick, other)
    ensures quantity == other
  {
    var bars := BarsBefore(m, tick.symbol, date);
    var x :| MostLots(rules, a, tick.price, x) && SizedTo(rules, bars, x, quantity);
    var y :| MostLots(rules, a, tick.price, y) && SizedTo(rules, bars, y, other);
    if x <= y {
      MostIsUnique(rules, a, tick.price, x, y);
    } else {
      MostIsUnique(rules, a, tick.price, y, x);
    }
    SizedIsUnique(rules, bars, x, quantity, other);
  }

  lemma SizedIsUnique(rules: Rules, bars: seq<DailyBar>, base: int, quantity: int, other: int)
    requires SizedTo(rules, bars, base, quantity) && SizedTo(rules, bars, base, other)
    ensures quantity == other
  {
    if rules.sizing && bars != [] && rules.assess(bars).Some? && rules.assess(bars).value.level == Caution {
      var within := base as real * rules.cautionLotRatio;
      if quantity <= other {
        CautionIsUnique(base, rules.orderUnit, within, quantity, other);
      } else {
        CautionIsUnique(base, rules.orderUnit, within, other, quantity);
      }
    }
  }

  // ---------------------------------------------------------------- the purchase

  ghost predicate RoomFor(rules: Rules, a: Account) {
    rules.targetPositions.None? || |OpenSymbols(a.holdings)| < rules.targetPositions.value
  }

  /** What a signal to buy leads to, given the quantity asked for and the order as it would be executed. */
  ghost predicate Bought(a: Account, after: Account, order: Signal) {
    var s := order.symbol;
    && after.cash == a.cash - order.price * order.quantity as real - order.fee
    && after.holdings == a.holdings[s := order.quantity]
    && after.log == a.log.(signals := a.log.signals + [order])
    && after.avgCost == a.avgCost[s := CostPerShare(order)]
    && after.entries.prices == a.entries.prices[s := order.price]
    && after.entries.highs == a.entries.highs[s := order.price]
    && after.entries.fees == a.entries.fees[s := order.fee]
    && after.entries.dates == a.entries.dates[s := order.date]
    && after.entries.times == if order.time.Some? then a.entries.times[s := order.time.value] else a.entries.times
  }

  /** An order of a quantity at a quote. */
  ghost predicate IsOrder(rules: Rules, date: Date, tick: Tick, order: Signal) {
    && order.symbol == tick.symbol && order.side == Buy && order.date == date && order.note == NoNote
    && Executed(rules, tick, order)
  }

  /** The symbol is not held, there is room, and the day does not forbid it. */
  ghost predicate MayEnter(rules: Rules, m: Market, a: Account, date: Date, s: Symbol) {
    s !in OpenSymbols(a.holdings) && RoomFor(rules, a) && !Forbidden(m, date)
  }

  ghost predicate Covers(cash: real, price: real, quantity: int, fee: real) {
    price * quantity as real + fee <= cash
  }

  /** What stands between a signal and its purchase: the symbol may be entered, a positive quantity is asked for, and the
      cash covers it at the signal's price and as executed with its fee. */
  ghost predicate Passes(rules: Rules, m: Market, a: Account, tick: Tick, order: Signal) {
    && MayEnter(rules, m, a, order.date, tick.symbol) && order.quantity > 0
    && Covers(a.cash, tick.price, order.quantity, 0.0) && Covers(a.cash, order.price, order.quantity, order.fee)
  }

  lemma MayEnterIff(rules: Rules, m: Market, a: Account, date: Date, s: Symbol)
    requires KeysSound(a)
    ensures MayEnter(rules, m, a, date, s) <==> Held(a, s) == 0 && !PositionsFull(rules, a) && !Forbidden(m, date)
  {
    OpenPositionsAreCounted(a);
    assert Held(a, s) == 0 <==> s !in OpenSymbols(a.holdings);
  }

  lemma GatesOf(rules: Rules, m: Market, a: Account, date: Date, tick: Tick, quantity: int, price: real, fee: real,
                enters: bool)
    requires quantity == OrderQuantity(rules, m, a, date, tick)
    requires price == ExecutionPrice(rules, Buy, tick) && fee == Fee(rules, price, quantity)
    requires enters <==> Held(a, tick.symbol) == 0 && !PositionsFull(rules, a) && !Forbidden(m, date)
    ensures TryBuy(rules, m, a, date, tick) ==
            if enters && quantity > 0 && Covers(a.cash, tick.price, quantity, 0.0)
              && Covers(a.cash, price, quantity, fee)
            then Open(rules, a, date, tick, quantity)
            else a
  {}

  /** A signal to buy leads to a purchase if and only if it passes these gates. Otherwise nothing changes. */
  lemma BuysIff(rules: Rules, m: Market, a: Account, date: Date, tick: Tick, order: Signal)
    requires KeysSound(a) && rules.cautionLotRatio <= 1.0
    requires IsOrder(rules, date, tick, order) && Asked(rules, m, a, date, tick, order.quantity)
    ensures
      var after := TryBuy(rules, m, a, date, tick);
      if Passes(rules, m, a, tick, order) then Bought(a, after, order) else after == a
  {
    OrderIsAsked(rules, m, a, date, tick);
    AskedIsUnique(rules, m, a, date, tick, order.quantity, OrderQuantity(rules, m, a, date, tick));
    ExecutedIsPriced(rules, date, tick, order);
    MayEnterIff(rules, m, a, date, tick.symbol);
    GatesOf(rules, m, a, date, tick, order.quantity, order.price, order.fee,
            MayEnter(rules, m, a, date, tick.symbol));
    if order.quantity > 0 {
      OpensAs(rules, a, date, tick, order);
    }
  }

  lemma ExecutedIsPriced(rules: Rules, date: Date, tick: Tick, order: Signal)
    requires IsOrder(rules, date, tick, order)
    ensures order.price == ExecutionPrice(rules, Buy, tick) && order.delayedPrice == DelayedPrice(rules, tick)
    ensures order == BuySignal(rules, date, tick, order.quantity, order.price, order.fee)
    ensures order.fee == Fee(rules, order.price, order.quantity)
  {
    ExecutedIff(rules, tick, order);
  }

  lemma OpensAs(rules: Rules, a: Account, date: Date, tick: Tick, order: Signal)
    requires IsOrder(rules, date, tick, order) && order.quantity > 0
    ensures Bought(a, Open(rules, a, date, tick, order.quantity), order)
  {
    ExecutedIsPriced(rules, date, tick, order);
  }

  /** There is always one order to judge. */
  lemma SomeOrder(rules: Rules, m: Market, a: Account, date: Date, tick: Tick) returns (order: Signal)
    requires KeysSound(a) && rules.cautionLotRatio <= 1.0
    ensures IsOrder(rules, date, tick, order) && Asked(rules, m, a, date, tick, order.quantity)
  {
    var quantity, price := OrderQuantity(rules, m, a, date, tick), ExecutionPrice(rules, Buy, tick);
    OrderIsAsked(rules, m, a, date, tick);
    order := BuySignal(rules, date, tick, quantity, price, Fee(rules, price, quantity));
    ExecutedIff(rules, tick, order);
  }

  /** Whenever a symbol that is not held signals to buy, its purchase is tried within the moment, on an account that
      shows the symbol as it was. `BuysIff` says what comes of it. */
  lemma SignalToBuyIsTried(c: Course, seen: map<Symbol, seq<real>>, w: When, a: Account)
    requires Ascends(c.m.universe) && c.symbol in c.m.universe && KeysSound(a) && Held(a, c.symbol) == 0
    requires Known(c, seen, w) && Quote(c, w).Some? && Buys(c, w)
    ensures
      var b := TradeMoment(c.rules, c.m, seen, w.date, a, TicksAt(c.m, w.date, w.time, c.m.universe));
      Tried(c.rules, c.m, ViewOf(a, c.symbol), ViewOf(b, c.symbol), w.date, Quote(c, w).value)
  {
    MomentShows(c.rules, c.m, seen, w.date, w.time, a, c.symbol);
    QuoteSignalsIff(c, seen, w, None);
  }
}
