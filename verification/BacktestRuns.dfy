/** Solvency, position limits, the trade records and the end of each day of a backtest run. */
module BacktestRuns {
  import opened Common
  import opened Backtest
  import opened BacktestLedger

  // ---------------------------------------------------------------- solvency

  predicate PricedTick(tick: Tick) {
    tick.price >= 0.0 && forall k :: 0 <= k < |tick.prices| ==> tick.prices[k] >= 0.0
  }

  predicate Solvent(a: Account) {
    a.cash >= 0.0
  }

  /** Fees of at most the whole price and slippage of at most the whole price. */
  predicate BearableCosts(rules: Rules) {
    0.0 <= rules.feeRate <= 1.0 && 0.0 <= rules.slippageBps <= 10_000.0
  }

  lemma SaleAddsCash(rules: Rules, price: real, quantity: int)
    requires quantity > 0 && price > 0.0
    ensures Amount(price, quantity) - Fee(rules, price, quantity) >= 0.0 <==> rules.feeRate <= 1.0
  {
    var amount := price * quantity as real;
    if rules.feeRate <= 1.0 {
      ScaleKeepsOrder(rules.feeRate, 1.0, amount);
    }
  }

  /** A sale at a positive price lowers the cash exactly when the fee rate exceeds the whole price. */
  lemma CashFallsOnSaleIff(rules: Rules, a: Account, date: Date, tick: Tick, note: Note)
    requires Held(a, tick.symbol) > 0 && ExecutionPrice(rules, Sell, tick) > 0.0
    ensures Close(rules, a, date, tick, note).cash < a.cash <==> rules.feeRate > 1.0
  {
    SaleAddsCash(rules, ExecutionPrice(rules, Sell, tick), Held(a, tick.symbol));
  }

  lemma SellingPriceNotNegative(rules: Rules, tick: Tick)
    requires BearableCosts(rules) && PricedTick(tick)
    ensures ExecutionPrice(rules, Sell, tick) >= 0.0
  {
    if !rules.limitOrders {
      var price, rate := DelayedPrice(rules, tick), 1.0 - rules.slippageBps / 10_000.0;
      ScaleKeepsOrder(0.0, price, rate);
    }
  }

  lemma SolvencyIsKept(rules: Rules, m: Market, date: Date)
    requires BearableCosts(rules)
    ensures Keeps(rules, m, date, Solvent, PricedTick)
  {
    forall a: Account, tick: Tick, note: Note | Solvent(a) && PricedTick(tick)
      ensures Solvent(Close(rules, a, date, tick, note))
    {
      CloseStaysSolvent(rules, a, date, tick, note);
    }
    forall a: Account, tick: Tick | Solvent(a) ensures Solvent(TryBuy(rules, m, a, date, tick)) {}
  }

  lemma CloseStaysSolvent(rules: Rules, a: Account, date: Date, tick: Tick, note: Note)
    requires BearableCosts(rules) && PricedTick(tick) && a.cash >= 0.0
    ensures Close(rules, a, date, tick, note).cash >= 0.0
  {
    var price, quantity := ExecutionPrice(rules, Sell, tick), Held(a, tick.symbol);
    SellingPriceNotNegative(rules, tick);
    if quantity > 0 {
      if price > 0.0 {
        SaleAddsCash(rules, price, quantity);
      } else {
        assert Amount(0.0, quantity) == 0.0 && Fee(rules, 0.0, quantity) == 0.0;
      }
    }
  }

  /** No price in the data is negative. */
  ghost predicate Priced(m: Market) {
    && (forall s, d :: s in m.closes && d in m.closes[s] ==> m.closes[s][d] >= 0.0)
    && (forall s, d :: s in m.minutes && d in m.minutes[s] ==>
          forall k :: 0 <= k < |m.minutes[s][d]| ==> m.minutes[s][d][k].price >= 0.0)
  }

  /** With bearable costs the cash never goes negative, at any moment of any run. */
  lemma {:induction false} CashNeverNegative(rules: Rules, m: Market, start: real, dates: seq<Date>, date: Date,
                                             t: Time)
    requires BearableCosts(rules) && Priced(m) && start >= 0.0 && t <= END_OF_DAY
    ensures
      var run := RunDates(rules, m, start, dates);
      run.account.cash >= 0.0 && DayUntil(rules, m, date, run.account, run.feed, t).account.cash >= 0.0
  {
    forall d | d in dates + [date] ensures Keeps(rules, m, d, Solvent, PricedTick) && DayTicks(m, d, PricedTick) {
      SolvencyIsKept(rules, m, d);
    }
    RunAndDayKeep(rules, m, start, dates, date, t, Solvent, PricedTick);
  }

  // ---------------------------------------------------------------- the position limit

  ghost predicate WithinLimit(limit: int, a: Account) {
    KeysSound(a) && OpenPositions(a) <= limit
  }

  lemma {:induction false} OpenWithout(order: seq<Symbol>, holdings: map<Symbol, int>, s: Symbol, quantity: int)
    requires s !in order
    ensures OpenAmong(order, holdings[s := quantity]) == OpenAmong(order, holdings)
  {
    if order != [] {
      assert order[|order| - 1] in order;
      OpenWithout(order[..|order| - 1], holdings, s, quantity);
    }
  }

  lemma {:induction false} OpenUpdated(order: seq<Symbol>, holdings: map<Symbol, int>, s: Symbol, quantity: int)
    requires s in order && forall i, j :: 0 <= i < j < |order| ==> order[i] != order[j]
    ensures OpenAmong(order, holdings[s := quantity]) ==
            OpenAmong(order, holdings) - (if Get(holdings, s, 0) > 0 then 1 else 0) + (if quantity > 0 then 1 else 0)
  {
    var rest, last := order[..|order| - 1], order[|order| - 1];
    if last == s {
      OpenWithout(rest, holdings, s, quantity);
    } else {
      OpenUpdated(rest, holdings, s, quantity);
    }
  }

  lemma OpenAddsOne(rules: Rules, a: Account, date: Date, tick: Tick, quantity: int)
    requires KeysSound(a) && quantity > 0 && Held(a, tick.symbol) == 0
    ensures OpenPositions(Open(rules, a, date, tick, quantity)) == OpenPositions(a) + 1
  {
    var s := tick.symbol;
    if s in a.holdings {
      OpenUpdated(a.order, a.holdings, s, quantity);
    } else {
      OpenWithout(a.order, a.holdings, s, quantity);
      assert (a.order + [s])[..|a.order|] == a.order;
    }
  }

  ghost function Limited(limit: int): Account -> bool {
    a => WithinLimit(limit, a)
  }

  lemma LimitIsKept(rules: Rules, m: Market, date: Date, limit: int)
    requires rules.targetPositions == Some(limit)
    ensures Keeps(rules, m, date, Limited(limit), _ => true)
  {
    KeysAreKept(rules, m, date);
    forall a: Account, tick: Tick, note: Note | WithinLimit(limit, a)
      ensures OpenPositions(Close(rules, a, date, tick, note)) <= limit
    {
      if Held(a, tick.symbol) > 0 {
        OpenUpdated(a.order, a.holdings, tick.symbol, 0);
      }
    }
    forall a: Account, tick: Tick | WithinLimit(limit, a)
      ensures OpenPositions(TryBuy(rules, m, a, date, tick)) <= limit
    {
      if TryBuy(rules, m, a, date, tick) != a {
        OpenAddsOne(rules, a, date, tick, OrderQuantity(rules, m, a, date, tick));
      }
    }
  }

  /** Open positions never exceed the target, at any moment of any run. */
  lemma {:induction false} PositionsWithinTarget(rules: Rules, m: Market, start: real, dates: seq<Date>, date: Date,
                                                 t: Time)
    requires rules.targetPositions.Some? && rules.targetPositions.value >= 0 && t <= END_OF_DAY
    ensures
      var run := RunDates(rules, m, start, dates);
      && OpenPositions(run.account) <= rules.targetPositions.value
      && OpenPositions(DayUntil(rules, m, date, run.account, run.feed, t).account) <= rules.targetPositions.value
  {
    var limit := rules.targetPositions.value;
    forall d | d in dates + [date] ensures Keeps(rules, m, d, Limited(limit), _ => true) {
      LimitIsKept(rules, m, d, limit);
    }
    RunAndDayKeep(rules, m, start, dates, date, t, Limited(limit), _ => true);
    var run := RunDates(rules, m, start, dates);
    assert Limited(limit)(run.account);
    assert Limited(limit)(DayUntil(rules, m, date, run.account, run.feed, t).account);
  }

  // ---------------------------------------------------------------- the signal trace

  /** The position in `s` that the signals amount to, or nothing when they do not alternate between a
      purchase and the sale of exactly what was bought. */
  function Replay(signals: seq<Signal>, s: Symbol): Option<int> {
    if signals == [] then Some(0)
    else
      var before, last := Replay(signals[..|signals| - 1], s), signals[|signals| - 1];
      if last.symbol != s then before
      else if before == Some(0) && last.side == Buy && last.quantity > 0 then Some(last.quantity)
      else if before.Some? && before.value > 0 && last.side == Sell && last.quantity == before.value then Some(0)
      else None
  }

  lemma ReplayStep(signals: seq<Signal>, last: Signal, s: Symbol)
    ensures
      var before := Replay(signals, s);
      Replay(signals + [last], s) ==
        (if last.symbol != s then before
         else if before == Some(0) && last.side == Buy && last.quantity > 0 then Some(last.quantity)
         else if before.Some? && before.value > 0 && last.side == Sell && last.quantity == before.value then Some(0)
         else None)
  {
    assert (signals + [last])[..|signals|] == signals;
  }

  /** The signals amount to the holdings. */
  ghost predicate ReplaysTo(signals: seq<Signal>, holdings: map<Symbol, int>) {
    forall s :: Replay(signals, s) == Some(Get(holdings, s, 0))
  }

  ghost predicate Replayed(a: Account) {
    ReplaysTo(a.log.signals, a.holdings)
  }

  lemma SaleReplays(signals: seq<Signal>, holdings: map<Symbol, int>, last: Signal)
    requires ReplaysTo(signals, holdings)
    requires last.side == Sell && last.quantity == Get(holdings, last.symbol, 0) > 0
    ensures ReplaysTo(signals + [last], holdings[last.symbol := 0])
  {
    forall s ensures Replay(signals + [last], s) == Some(Get(holdings[last.symbol := 0], s, 0)) {
      ReplayStep(signals, last, s);
    }
  }

  lemma PurchaseReplays(signals: seq<Signal>, holdings: map<Symbol, int>, last: Signal)
    requires ReplaysTo(signals, holdings)
    requires last.side == Buy && last.quantity > 0 && Get(holdings, last.symbol, 0) == 0
    ensures ReplaysTo(signals + [last], holdings[last.symbol := last.quantity])
  {
    forall s ensures Replay(signals + [last], s) == Some(Get(holdings[last.symbol := last.quantity], s, 0)) {
      ReplayStep(signals, last, s);
    }
  }

  lemma CloseStaysReplayed(rules: Rules, a: Account, date: Date, tick: Tick, note: Note)
    requires Replayed(a)
    ensures Replayed(Close(rules, a, date, tick, note))
  {
    if Held(a, tick.symbol) > 0 {
      SaleReplays(a.log.signals, a.holdings, Close(rules, a, date, tick, note).log.signals[|a.log.signals|]);
    }
  }

  lemma OpenStaysReplayed(rules: Rules, a: Account, date: Date, tick: Tick, quantity: int)
    requires Replayed(a) && quantity > 0 && Held(a, tick.symbol) == 0
    ensures Replayed(Open(rules, a, date, tick, quantity))
  {
    PurchaseReplays(a.log.signals, a.holdings, Open(rules, a, date, tick, quantity).log.signals[|a.log.signals|]);
  }

  lemma ReplayIsKept(rules: Rules, m: Market, date: Date)
    ensures Keeps(rules, m, date, Replayed, _ => true)
  {
    forall a: Account, tick: Tick, note: Note | Replayed(a) ensures Replayed(Close(rules, a, date, tick, note)) {
      CloseStaysReplayed(rules, a, date, tick, note);
    }
    forall a: Account, tick: Tick | Replayed(a) ensures Replayed(TryBuy(rules, m, a, date, tick)) {
      if TryBuy(rules, m, a, date, tick) != a {
        OpenStaysReplayed(rules, a, date, tick, OrderQuantity(rules, m, a, date, tick));
      }
    }
  }

  /** The signals of one symbol. */
  function TraceOf(signals: seq<Signal>, s: Symbol): seq<Signal> {
    if signals == [] then []
    else
      var last := signals[|signals| - 1];
      TraceOf(signals[..|signals| - 1], s) + (if last.symbol == s then [last] else [])
  }

  ghost predicate Alternates(trace: seq<Signal>) {
    forall i :: 0 <= i < |trace| ==>
      && trace[i].quantity > 0
      && trace[i].side == (if i % 2 == 0 then Buy else Sell)
      && (i % 2 == 1 ==> trace[i].quantity == trace[i - 1].quantity)
  }

  /** What an alternating trace leaves open. */
  function LeftOpen(trace: seq<Signal>): int {
    if |trace| % 2 == 0 then 0 else trace[|trace| - 1].quantity
  }

  lemma LeftOpenIsPositiveWhenOdd(trace: seq<Signal>)
    requires Alternates(trace)
    ensures LeftOpen(trace) >= 0
    ensures LeftOpen(trace) > 0 <==> |trace| % 2 == 1
  {}

  /** A purchase extends an alternating trace that leaves nothing open, and the sale of what is open
      one that does. */
  lemma AlternatesStep(trace: seq<Signal>, last: Signal)
    requires Alternates(trace)
    requires
      || (LeftOpen(trace) == 0 && last.side == Buy && last.quantity > 0)
      || (LeftOpen(trace) > 0 && last.side == Sell && last.quantity == LeftOpen(trace))
    ensures Alternates(trace + [last])
    ensures LeftOpen(trace + [last]) == if last.side == Buy then last.quantity else 0
  {
    LeftOpenIsPositiveWhenOdd(trace);
  }

  lemma {:induction false} ReplayedTraceAlternates(signals: seq<Signal>, s: Symbol)
    requires Replay(signals, s).Some?
    ensures Alternates(TraceOf(signals, s))
    ensures Replay(signals, s) == Some(LeftOpen(TraceOf(signals, s)))
  {
    if signals != [] {
      var before, last := signals[..|signals| - 1], signals[|signals| - 1];
      ReplayedTraceAlternates(before, s);
      if last.symbol == s {
        AlternatesStep(TraceOf(before, s), last);
      } else {
        assert TraceOf(before, s) + [] == TraceOf(before, s);
      }
    }
  }

  /** In every run the signals of a symbol strictly alternate between buying and selling the same
      quantity, and what they leave open is what is held. */
  lemma {:induction false} SignalsAlternate(rules: Rules, m: Market, start: real, dates: seq<Date>, s: Symbol)
    ensures
      var a := RunDates(rules, m, start, dates).account;
      var trace := TraceOf(a.log.signals, s);
      Alternates(trace) && Held(a, s) == LeftOpen(trace)
  {
    forall d | d in dates ensures Keeps(rules, m, d, Replayed, _ => true) {
      ReplayIsKept(rules, m, d);
    }
    RunKeeps(rules, m, start, dates, Replayed, _ => true);
    ReplayedTraceAlternates(RunDates(rules, m, start, dates).account.log.signals, s);
  }

  // ---------------------------------------------------------------- the trade records

  /** A trade's result is what the sale brought less what the purchase cost, both fees included. */
  predicate FairTrade(trade: Trade) {
    && trade.quantity > 0
    && trade.pnl == Amount(trade.sellPrice, trade.quantity) - Amount(trade.buyPrice, trade.quantity) - trade.entryFee
         - trade.exitFee
  }

  /** Every recorded trade is fair, and its result is the realized one. */
  ghost predicate HistorySound(history: seq<Trade>, results: seq<real>) {
    && |history| == |results|
    && forall i :: 0 <= i < |history| ==> FairTrade(history[i]) && history[i].pnl == results[i]
  }

  /** The recorded cost of an open position is its entry price and fee. */
  ghost predicate CostsSound(a: Account) {
    forall s :: s in a.entries.prices ==>
      Amount(Get(a.avgCost, s, 0.0), Held(a, s)) == Amount(a.entries.prices[s], Held(a, s))
        + Get(a.entries.fees, s, 0.0)
  }

  ghost predicate TradesSound(a: Account) {
    KeysSound(a) && HistorySound(a.log.history, a.log.results) && CostsSound(a)
  }

  lemma CloseIsFair(rules: Rules, a: Account, date: Date, tick: Tick, note: Note)
    requires KeysSound(a) && CostsSound(a) && Held(a, tick.symbol) > 0
    ensures
      var b := Close(rules, a, date, tick, note);
      && b.log.history == a.log.history + [b.log.history[|a.log.history|]]
      && b.log.results == a.log.results + [b.log.results[|a.log.results|]]
      && FairTrade(b.log.history[|a.log.history|])
      && b.log.history[|a.log.history|].pnl == b.log.results[|a.log.results|]
  {
    var s, quantity := tick.symbol, Held(a, tick.symbol);
    assert s in OpenSymbols(a.holdings);
    var price := ExecutionPrice(rules, Sell, tick);
    ProfitIsProceedsLessCost(price, Get(a.avgCost, s, 0.0), quantity, Fee(rules, price, quantity));
  }

  lemma CloseKeepsHistory(rules: Rules, a: Account, date: Date, tick: Tick, note: Note)
    requires TradesSound(a)
    ensures
      var log := Close(rules, a, date, tick, note).log;
      HistorySound(log.history, log.results)
  {
    if Held(a, tick.symbol) > 0 {
      CloseIsFair(rules, a, date, tick, note);
    }
  }

  lemma CloseKeepsCosts(rules: Rules, a: Account, date: Date, tick: Tick, note: Note)
    requires CostsSound(a)
    ensures CostsSound(Close(rules, a, date, tick, note))
  {}

  lemma CloseKeepsTrades(rules: Rules, a: Account, date: Date, tick: Tick, note: Note)
    requires TradesSound(a)
    ensures TradesSound(Close(rules, a, date, tick, note))
  {
    CloseKeepsHistory(rules, a, date, tick, note);
    CloseKeepsCosts(rules, a, date, tick, note);
    CloseKeepsKeys(rules, a, date, tick, note);
  }

  lemma OpenKeepsCosts(rules: Rules, a: Account, date: Date, tick: Tick, quantity: int)
    requires CostsSound(a) && quantity > 0
    ensures CostsSound(Open(rules, a, date, tick, quantity))
  {
    var price := ExecutionPrice(rules, Buy, tick);
    UnitCostCoversFee(price, quantity, Fee(rules, price, quantity));
  }

  lemma OpenKeepsTrades(rules: Rules, a: Account, date: Date, tick: Tick, quantity: int)
    requires TradesSound(a) && quantity > 0
    ensures TradesSound(Open(rules, a, date, tick, quantity))
  {
    OpenKeepsKeys(rules, a, date, tick, quantity);
    OpenKeepsCosts(rules, a, date, tick, quantity);
  }

  lemma TradesAreKept(rules: Rules, m: Market, date: Date)
    ensures Keeps(rules, m, date, TradesSound, _ => true)
  {
    forall a: Account, tick: Tick, note: Note | TradesSound(a) ensures TradesSound(Close(rules, a, date, tick, note)) {
      CloseKeepsTrades(rules, a, date, tick, note);
    }
    forall a: Account, tick: Tick | TradesSound(a) ensures TradesSound(TryBuy(rules, m, a, date, tick)) {
      if TryBuy(rules, m, a, date, tick) != a {
        OpenKeepsTrades(rules, a, date, tick, OrderQuantity(rules, m, a, date, tick));
      }
    }
    forall a: Account, tick: Tick | TradesSound(a) ensures TradesSound(Raise(a, tick)) {
      forall s ensures Held(Raise(a, tick), s) == Held(a, s) {}
    }
  }

  /** In every run each trade record accounts for its own result. */
  lemma {:induction false} TradesAccountForResults(rules: Rules, m: Market, start: real, dates: seq<Date>)
    ensures TradesSound(RunDates(rules, m, start, dates).account)
  {
    forall d | d in dates ensures Keeps(rules, m, d, TradesSound, _ => true) {
      TradesAreKept(rules, m, d);
    }
    RunKeeps(rules, m, start, dates, TradesSound, _ => true);
  }

  // ---------------------------------------------------------------- the end of the day

  ghost predicate SameDayTrades(history: seq<Trade>) {
    forall i :: 0 <= i < |history| ==> history[i].entryDate == history[i].exitDate
  }

  /** Positions were opened today, and every trade so far was closed on its own day. */
  ghost predicate OpenedToday(date: Date, a: Account) {
    && KeysSound(a) && SameDayTrades(a.log.history)
    && (forall s :: s in a.entries.dates ==> a.entries.dates[s] == date)
  }

  lemma CloseStaysToday(rules: Rules, a: Account, date: Date, tick: Tick, note: Note)
    requires OpenedToday(date, a)
    ensures OpenedToday(date, Close(rules, a, date, tick, note))
  {
    CloseKeepsKeys(rules, a, date, tick, note);
    if Held(a, tick.symbol) > 0 {
      assert tick.symbol in OpenSymbols(a.holdings);
    }
  }

  lemma OpenStaysToday(rules: Rules, a: Account, date: Date, tick: Tick, quantity: int)
    requires OpenedToday(date, a) && quantity > 0
    ensures OpenedToday(date, Open(rules, a, date, tick, quantity))
  {
    OpenKeepsKeys(rules, a, date, tick, quantity);
  }

  lemma TodayIsKept(rules: Rules, m: Market, date: Date)
    ensures Keeps(rules, m, date, a => OpenedToday(date, a), _ => true)
  {
    forall a: Account, tick: Tick, note: Note | OpenedToday(date, a)
      ensures OpenedToday(date, Close(rules, a, date, tick, note))
    {
      CloseStaysToday(rules, a, date, tick, note);
    }
    forall a: Account, tick: Tick | OpenedToday(date, a) ensures OpenedToday(date, TryBuy(rules, m, a, date, tick)) {
      if TryBuy(rules, m, a, date, tick) != a {
        OpenStaysToday(rules, a, date, tick, OrderQuantity(rules, m, a, date, tick));
      }
    }
    forall a: Account, tick: Tick | OpenedToday(date, a) ensures OpenedToday(date, Raise(a, tick)) {}
  }

  ghost predicate QuotedOnly(quoted: set<Symbol>, a: Account) {
    OpenSymbols(a.holdings) <= quoted
  }

  predicate QuotedTick(quoted: set<Symbol>, tick: Tick) {
    tick.symbol in quoted
  }

  lemma {:induction false} ClosingGrows(closing: map<Symbol, Tick>, ticks: seq<Tick>)
    ensures closing.Keys <= Fold(Closer(), closing, ticks).Keys
    ensures forall k :: 0 <= k < |ticks| ==> ticks[k].symbol in Fold(Closer(), closing, ticks)
  {
    if ticks != [] {
      ClosingGrows(closing, ticks[..|ticks| - 1]);
    }
  }

  lemma {:induction false} TicksInclude(m: Market, date: Date, t: Time, symbols: seq<Symbol>, s: Symbol)
    requires s in symbols && TickAt(m, date, t, s).Some?
    ensures TickAt(m, date, t, s).value in TicksAt(m, date, t, symbols)
  {
    if symbols[|symbols| - 1] != s {
      TicksInclude(m, date, t, symbols[..|symbols| - 1], s);
    }
  }

  lemma MomentClosing(rules: Rules, m: Market, date: Date, day: Day, ticks: seq<Tick>)
    ensures
      var after := Moment(rules, m, date, day, ticks).closing;
      day.closing.Keys <= after.Keys && forall k :: 0 <= k < |ticks| ==> ticks[k].symbol in after
  {
    ClosingGrows(day.closing, ticks);
  }

  /** The symbols with a closing quote by time `t`. */
  function ClosingAt(rules: Rules, m: Market, date: Date, a: Account, feed: Feed, t: nat): set<Symbol> {
    DayUntil(rules, m, date, a, feed, t).closing.Keys
  }

  lemma QuotedIsClosing(rules: Rules, m: Market, date: Date, day: Day, t: Time, s: Symbol)
    requires s in m.universe
    ensures
      var after := Moment(rules, m, date, day, TicksAt(m, date, t, m.universe)).closing;
      day.closing.Keys <= after.Keys && (TickAt(m, date, t, s).Some? ==> s in after)
  {
    var ticks := TicksAt(m, date, t, m.universe);
    MomentClosing(rules, m, date, day, ticks);
    if TickAt(m, date, t, s).Some? {
      TicksInclude(m, date, t, m.universe, s);
      var k :| 0 <= k < |ticks| && ticks[k] == TickAt(m, date, t, s).value;
      assert ticks[k].symbol == s;
    }
  }

  lemma ClosingTurn(rules: Rules, m: Market, date: Date, a: Account, feed: Feed, t: nat, s: Symbol)
    requires s in m.universe
    ensures s in ClosingAt(rules, m, date, a, feed, t) ==> s in ClosingAt(rules, m, date, a, feed, t + 1)
    ensures TickAt(m, date, t, s).Some? ==> s in ClosingAt(rules, m, date, a, feed, t + 1)
  {
    DayTurn(rules, m, date, a, feed, t);
    QuotedIsClosing(rules, m, date, DayUntil(rules, m, date, a, feed, t), t, s);
  }

  /** Every symbol quoted before time `t` has a closing quote by then. */
  lemma {:induction false} ClosingCovers(rules: Rules, m: Market, date: Date, a: Account, feed: Feed, t: nat, u: Time,
                                         s: Symbol)
    requires u < t && s in m.universe && TickAt(m, date, u, s).Some?
    ensures s in ClosingAt(rules, m, date, a, feed, t)
    decreases t
  {
    ClosingTurn(rules, m, date, a, feed, t - 1, s);
    if u < t - 1 {
      ClosingCovers(rules, m, date, a, feed, t - 1, u, s);
    }
  }

  /** Liquidation closes the quoted positions under the keys it visits and touches no other. */
  lemma {:induction false} LiquidationCloses(rules: Rules, date: Date, closing: map<Symbol, Tick>, a: Account,
                                             keys: seq<Symbol>)
    requires forall s :: s in closing ==> closing[s].symbol == s
    ensures
      var b := Fold(Liquidator(rules, date, closing), a, keys);
      OpenSymbols(b.holdings) == set s | s in OpenSymbols(a.holdings) && !(s in keys && s in closing)
  {
    if keys != [] {
      var n := |keys| - 1;
      LiquidationCloses(rules, date, closing, a, keys[..n]);
      var b := Fold(Liquidator(rules, date, closing), a, keys[..n]);
      ClosedSymbols(b.holdings, keys[n]);
      assert forall s :: s in keys <==> s in keys[..n] || s == keys[n];
    }
  }

  ghost predicate FlatAfterDay(a: Account) {
    KeysSound(a) && OpenSymbols(a.holdings) == {} && SameDayTrades(a.log.history)
  }

  ghost predicate RunIsFlat(run: Run) {
    FlatAfterDay(run.account)
  }

  lemma {:induction false} DayEndsFlat(rules: Rules, m: Market, run: Run, date: Date)
    requires rules.closeAtEndOfDay && FlatAfterDay(run.account)
    ensures FlatAfterDay(RunDate(rules, m, run, date).account)
  {
    var day := DayUntil(rules, m, date, run.account, run.feed, END_OF_DAY);
    var quoted := day.closing.Keys;
    TodayIsKept(rules, m, date);
    RunDateKeeps(rules, m, run, date, a => OpenedToday(date, a), _ => true);
    forall t: Time, s: Symbol | t < END_OF_DAY && s in m.universe && TickAt(m, date, t, s).Some?
      ensures TickAt(m, date, t, s).value.symbol in quoted
    {
      ClosingCovers(rules, m, date, run.account, run.feed, END_OF_DAY, t, s);
    }
    DayUntilKeeps(rules, m, date, run.account, run.feed, END_OF_DAY, a => QuotedOnly(quoted, a),
                  (tick: Tick) => QuotedTick(quoted, tick));
    KeysAreKept(rules, m, date);
    DayUntilKeeps(rules, m, date, run.account, run.feed, END_OF_DAY, KeysSound, _ => true);
    LiquidationCloses(rules, date, day.closing, day.account, day.account.order);
  }

  /** With liquidation at the end of the day every date ends without open positions, and every trade
      is entered and left on the same date. */
  lemma {:induction false} EveryDayEndsFlat(rules: Rules, m: Market, start: real, dates: seq<Date>)
    requires rules.closeAtEndOfDay
    ensures
      var a := RunDates(rules, m, start, dates).account;
      (forall s :: Held(a, s) == 0) && SameDayTrades(a.log.history)
  {
    var runner := Runner(rules, m);
    forall run: Run, date: Date | RunIsFlat(run) ensures RunIsFlat(runner(run, date)) {
      DayEndsFlat(rules, m, run, date);
    }
    FoldKeeps(runner, Run(Opened(start), Feed(map[], map[])), dates, RunIsFlat, _ => true);
    var a := RunDates(rules, m, start, dates).account;
    forall s ensures Held(a, s) == 0 {
      assert s !in OpenSymbols(a.holdings);
    }
  }

  lemma {:induction false} FlatCostsNothing(order: seq<Symbol>, holdings: map<Symbol, int>, avgCost: map<Symbol, real>)
    requires forall s :: Get(holdings, s, 0) == 0
    ensures CostOf(order, holdings, avgCost) == 0.0
  {
    if order != [] {
      FlatCostsNothing(order[..|order| - 1], holdings, avgCost);
    }
  }

  lemma {:induction false} FlatEquityIsCash(a: Account, last: map<Symbol, real>, keys: seq<Symbol>)
    requires forall s :: Held(a, s) == 0
    ensures Equity(a, last, keys) == a.cash
  {
    if keys != [] {
      FlatEquityIsCash(a, last, keys[..|keys| - 1]);
    }
  }

  /** Then the reported profit, final equity less the starting cash, is the sum of the realized results. */
  lemma {:induction false} ReportedProfitIsRealized(rules: Rules, m: Market, start: real, dates: seq<Date>)
    requires rules.closeAtEndOfDay
    ensures
      var run := RunDates(rules, m, start, dates);
      Equity(run.account, run.feed.last, run.account.order) - start == Sum(run.account.log.results)
  {
    var run := RunDates(rules, m, start, dates);
    EveryDayEndsFlat(rules, m, start, dates);
    MoneyIsConserved(rules, m, start, dates);
    forall s ensures Get(run.account.holdings, s, 0) == 0 {
      assert Held(run.account, s) == 0;
    }
    FlatCostsNothing(run.account.order, run.account.holdings, run.account.avgCost);
    FlatEquityIsCash(run.account, run.feed.last, run.account.order);
  }

  // ---------------------------------------------------------------- what is reported

  /** The gain of the open positions at their latest prices over what they have cost; one without a price counts as
      lost. */
  function Unrealized(order: seq<Symbol>, holdings: map<Symbol, int>, avgCost: map<Symbol, real>,
                      last: map<Symbol, real>): real {
    if order == [] then 0.0
    else
      var s, earlier := order[|order| - 1], order[..|order| - 1];
      var price := if Get(holdings, s, 0) > 0 && s in last then last[s] else 0.0;
      Unrealized(earlier, holdings, avgCost, last) + (price - Get(avgCost, s, 0.0)) * Get(holdings, s, 0) as real
  }

  lemma GainOverCost(price: real, cost: real, quantity: int)
    ensures quantity as real * price == Amount(cost, quantity) + (price - cost) * quantity as real
  {}

  lemma {:induction false} EquityIsCostAndGain(a: Account, last: map<Symbol, real>, keys: seq<Symbol>)
    ensures Equity(a, last, keys) ==
            a.cash + CostOf(keys, a.holdings, a.avgCost) + Unrealized(keys, a.holdings, a.avgCost, last)
  {
    if keys != [] {
      EquityIsCostAndGain(a, last, keys[..|keys| - 1]);
      KeyIsCostAndGain(a, last, keys[..|keys| - 1], keys[|keys| - 1], keys);
    }
  }

  lemma EquityKey(a: Account, last: map<Symbol, real>, earlier: seq<Symbol>, s: Symbol, value: real)
    requires value == if Held(a, s) > 0 && s in last then Held(a, s) as real * last[s] else 0.0
    ensures Equity(a, last, earlier + [s]) == Equity(a, last, earlier) + value
  {
    assert (earlier + [s])[..|earlier|] == earlier;
  }

  lemma CostKey(a: Account, earlier: seq<Symbol>, s: Symbol, cost: real)
    requires cost == Amount(Get(a.avgCost, s, 0.0), Get(a.holdings, s, 0))
    ensures CostOf(earlier + [s], a.holdings, a.avgCost) == CostOf(earlier, a.holdings, a.avgCost) + cost
  {
    assert (earlier + [s])[..|earlier|] == earlier;
  }

  lemma GainKey(a: Account, last: map<Symbol, real>, earlier: seq<Symbol>, s: Symbol, price: real, gain: real)
    requires price == if Get(a.holdings, s, 0) > 0 && s in last then last[s] else 0.0
    requires gain == (price - Get(a.avgCost, s, 0.0)) * Get(a.holdings, s, 0) as real
    ensures Unrealized(earlier + [s], a.holdings, a.avgCost, last) ==
            Unrealized(earlier, a.holdings, a.avgCost, last) + gain
  {
    assert (earlier + [s])[..|earlier|] == earlier;
  }

  /** One more key. */
  lemma KeyIsCostAndGain(a: Account, last: map<Symbol, real>, earlier: seq<Symbol>, s: Symbol, keys: seq<Symbol>)
    requires keys == earlier + [s]
    requires Equity(a, last, earlier) ==
             a.cash + CostOf(earlier, a.holdings, a.avgCost) + Unrealized(earlier, a.holdings, a.avgCost, last)
    ensures Equity(a, last, keys) ==
            a.cash + CostOf(keys, a.holdings, a.avgCost) + Unrealized(keys, a.holdings, a.avgCost, last)
  {
    var value, cost, gain := ValueOfKey(a, last, earlier, s);
  }

  lemma ValueOfKey(a: Account, last: map<Symbol, real>, earlier: seq<Symbol>, s: Symbol)
    returns (value: real, cost: real, gain: real)
    ensures value == cost + gain
    ensures Equity(a, last, earlier + [s]) == Equity(a, last, earlier) + value
    ensures CostOf(earlier + [s], a.holdings, a.avgCost) == CostOf(earlier, a.holdings, a.avgCost) + cost
    ensures Unrealized(earlier + [s], a.holdings, a.avgCost, last) ==
            Unrealized(earlier, a.holdings, a.avgCost, last) + gain
  {
    var price := if Held(a, s) > 0 && s in last then last[s] else 0.0;
    value := if Held(a, s) > 0 && s in last then Held(a, s) as real * last[s] else 0.0;
    cost := Amount(Get(a.avgCost, s, 0.0), Held(a, s));
    gain := (price - Get(a.avgCost, s, 0.0)) * Held(a, s) as real;
    GainOverCost(price, Get(a.avgCost, s, 0.0), Held(a, s));
    EquityKey(a, last, earlier, s, value);
    CostKey(a, earlier, s, cost);
    GainKey(a, last, earlier, s, price, gain);
  }

  /** The reported profit of every run is the sum of its realized results and the gain of what is still open. */
  lemma ReportedProfitIsRealizedAndOpen(rules: Rules, m: Market, start: real, dates: seq<Date>)
    ensures
      var run := RunDates(rules, m, start, dates);
      var a, last := run.account, run.feed.last;
      Equity(a, last, a.order) - start == Sum(a.log.results) + Unrealized(a.order, a.holdings, a.avgCost, last)
  {
    var run := RunDates(rules, m, start, dates);
    MoneyIsConserved(rules, m, start, dates);
    EquityIsCostAndGain(run.account, run.feed.last, run.account.order);
  }
}
