/** Why a fixed-list backtest enters and leaves: every trade follows a signal to buy and ends at the first bar that asks
    for it. */
module FixedListStops {
  import opened Common
  import opened Backtest
  import opened BacktestLedger
  import opened BacktestConditions
  import opened FixedListBacktest
  import BacktestOrders

  // ---------------------------------------------------------------- what a trade has to show

  function ClosesOf(data: History, s: Symbol): seq<real> {
    Get(data.closes, s, [])
  }

  /** The daily bars known at the close of bar `k`, its own included. */
  function KnownBars(data: History, s: Symbol, k: nat): seq<DailyBar> {
    var bars := Get(data.bars, s, []);
    if k < |bars| then bars[..k + 1] else bars
  }

  /** As many closes before bar `k` as the indicators take. */
  function ClosesBefore(rules: Rules, closes: seq<real>, k: nat): seq<real>
    requires k <= |closes|
  {
    if k <= rules.minimumCloses then closes[..k] else closes[k - rules.minimumCloses..k]
  }

  /** `high` is the highest of the entry price and the closes after bar `from` up to bar `to`. */
  ghost predicate IsTop(high: real, entry: real, closes: seq<real>, from: int, to: int) {
    && entry <= high && (forall k :: from < k <= to && 0 <= k < |closes| ==> closes[k] <= high)
    && (high == entry || exists k :: from < k <= to && 0 <= k < |closes| && closes[k] == high)
  }

  /** An order at bar `k` and its fee. */
  ghost predicate OrderAt(rules: Rules, s: Symbol, closes: seq<real>, k: nat, side: Side, quantity: int, price: real,
                          fee: real)
    requires k < |closes|
  {
    && (forall delayed :: IsDelayed(rules, Tick(s, closes[k], None, closes, k), delayed) ==>
          PricedFrom(rules, side, closes[k], delayed, price))
    && fee == price * quantity as real * rules.feeRate
  }

  /** Bar `k` asks for the sale of what is held: a stop or a signal. */
  ghost predicate AsksToLeave(rules: Rules, data: History, s: Symbol, entry: real, cost: real, high: real, k: nat)
    requires k < |ClosesOf(data, s)|
  {
    var closes := ClosesOf(data, s);
    || AtTrailingLine(rules, KnownBars(data, s, k), entry, high, closes[k]) || AtLossLimit(rules, cost, closes[k])
    || AsksToSell(rules, ClosesBefore(rules, closes, k), closes[k])
  }

  /** What was bought at bar `from` has rightly been kept at the bars after it, up to bar `to`. */
  ghost predicate KeptTo(rules: Rules, data: History, s: Symbol, entry: real, cost: real, from: int, to: int)
    requires 0 <= from && to < |ClosesOf(data, s)|
  {
    forall k, high :: from < k <= to && IsTop(high, entry, ClosesOf(data, s), from, k) ==>
      !rules.closeAtEndOfDay && !AsksToLeave(rules, data, s, entry, cost, high, k)
  }

  /** A purchase at bar `k` on a signal. */
  ghost predicate EnteredAt(rules: Rules, data: History, s: Symbol, k: int, quantity: int, price: real, fee: real) {
    var closes := ClosesOf(data, s);
    && 0 <= k < |closes| && quantity > 0 && OrderAt(rules, s, closes, k, Buy, quantity, price, fee)
    && AsksToBuy(rules, ClosesBefore(rules, closes, k), closes[k], true)
  }

  function CostPerShare(price: real, fee: real, quantity: int): real {
    if quantity > 0 then price + fee / quantity as real else price
  }

  /** The result is what the sale brought less what the purchase cost, both fees included. */
  ghost predicate FairResult(t: ListTrade) {
    t.pnl == t.sellPrice * t.quantity as real - t.buyPrice * t.quantity as real - t.entryFee - t.exitFee
  }

  /** A trade enters on a signal and leaves at the first later bar that asks for it, which with liquidation is the next
      one. */
  ghost predicate Justified(rules: Rules, data: History, t: ListTrade) {
    var s, closes, cost := t.symbol, ClosesOf(data, t.symbol), CostPerShare(t.buyPrice, t.entryFee, t.quantity);
    && EnteredAt(rules, data, s, t.entryDay, t.quantity, t.buyPrice, t.entryFee)
    && t.entryDay < t.exitDay < |closes|
    && OrderAt(rules, s, closes, t.exitDay, Sell, t.quantity, t.sellPrice, t.exitFee) && FairResult(t)
    && KeptTo(rules, data, s, t.buyPrice, cost, t.entryDay, t.exitDay - 1)
    && (rules.closeAtEndOfDay
        || exists high :: IsTop(high, t.buyPrice, closes, t.entryDay, t.exitDay)
             && AsksToLeave(rules, data, s, t.buyPrice, cost, high, t.exitDay))
  }

  /** What is held before bar `n` was bought on a signal and rightly kept since. */
  ghost predicate Holds(rules: Rules, data: History, s: Symbol, h: Holding, n: nat)
    requires n <= |ClosesOf(data, s)|
  {
    && EnteredAt(rules, data, s, h.bought, h.quantity, h.entry, h.fee) && h.bought < n
    && h.cost == CostPerShare(h.entry, h.fee, h.quantity)
    && IsTop(h.high, h.entry, ClosesOf(data, s), h.bought, n - 1)
    && KeptTo(rules, data, s, h.entry, h.cost, h.bought, n - 1)
  }

  ghost predicate AllJustified(rules: Rules, data: History, trades: seq<ListTrade>) {
    forall i :: 0 <= i < |trades| ==> Justified(rules, data, trades[i])
  }

  /** Where a pass over a symbol stands before bar `n`. */
  ghost predicate PassSound(rules: Rules, data: History, s: Symbol, n: nat, b: Book) {
    && n <= |ClosesOf(data, s)| && AllJustified(rules, data, b.trades)
    && (HeldOf(b, s).quantity == 0 || Holds(rules, data, s, HeldOf(b, s), n))
  }

  // ---------------------------------------------------------------- one bar

  lemma TopRises(high: real, entry: real, closes: seq<real>, from: int, n: nat)
    requires IsTop(high, entry, closes, from, n - 1) && from < n < |closes|
    ensures IsTop(Max(high, closes[n]), entry, closes, from, n)
  {}

  lemma TopIsUnique(high: real, other: real, entry: real, closes: seq<real>, from: int, to: int)
    requires IsTop(high, entry, closes, from, to) && IsTop(other, entry, closes, from, to)
    ensures high == other
  {}

  lemma StopIff(rules: Rules, data: History, b: Book, tick: Tick)
    requires SoundExits(rules)
    ensures
      var h := HeldOf(b, tick.symbol);
      StopHit(rules, data, b, tick) <==>
        && h.quantity > 0
        && (|| AtLossLimit(rules, h.cost, tick.price)
            || AtTrailingLine(rules, KnownBars(data, tick.symbol, tick.index), h.entry, h.high, tick.price))
  {
    var h, bars := HeldOf(b, tick.symbol), BarsUntil(data, tick.symbol, tick.index);
    assert bars == KnownBars(data, tick.symbol, tick.index);
    if rules.assess(bars).Some? {
      TrailingLineIff(rules, bars, h.entry, h.high, tick.price);
    }
  }

  lemma BarSignalIff(rules: Rules, s: Symbol, closes: seq<real>, n: nat)
    requires n < |closes|
    ensures
      var previous := ClosesBefore(rules, closes, n);
      && (SignalAt(rules, TickOf(s, closes, n)) == Some(Sell) <==> AsksToSell(rules, previous, closes[n]))
      && (SignalAt(rules, TickOf(s, closes, n)) == Some(Buy) <==> AsksToBuy(rules, previous, closes[n], true))
  {
    assert LastOf(closes[..n], rules.minimumCloses) == ClosesBefore(rules, closes, n);
    SignalIff(rules, ClosesBefore(rules, closes, n), closes[n], NormalMarket);
  }

  lemma OrdersAreAt(rules: Rules, s: Symbol, closes: seq<real>, n: nat, side: Side, quantity: int)
    requires n < |closes|
    ensures
      var price := ExecutionPrice(rules, side, TickOf(s, closes, n));
      OrderAt(rules, s, closes, n, side, quantity, price, Fee(rules, price, quantity))
  {
    var tick := TickOf(s, closes, n);
    var price := ExecutionPrice(rules, side, tick);
    forall delayed | IsDelayed(rules, Tick(s, closes[n], None, closes, n), delayed)
      ensures PricedFrom(rules, side, closes[n], delayed, price)
    {
      PriceIff(rules, side, tick, delayed, price);
    }
  }

  lemma SaleIsFair(h: Holding, price: real, fee: real)
    requires h.quantity > 0 && h.cost == CostPerShare(h.entry, h.fee, h.quantity)
    ensures
      var q := h.quantity as real;
      Profit(price, h.cost, h.quantity, fee) == price * q - h.entry * q - h.fee - fee
  {
    UnitCostCoversFee(h.entry, h.quantity, h.fee);
    ProfitIsProceedsLessCost(price, h.cost, h.quantity, fee);
  }

  /** The record of selling at bar `n` what was held, for a cause. */
  lemma RecordIsJustified(rules: Rules, data: History, s: Symbol, h: Holding, n: nat, high: real, price: real,
                          fee: real)
    requires n < |ClosesOf(data, s)| && Holds(rules, data, s, h, n)
    requires OrderAt(rules, s, ClosesOf(data, s), n, Sell, h.quantity, price, fee)
    requires rules.closeAtEndOfDay
             || (IsTop(high, h.entry, ClosesOf(data, s), h.bought, n)
                 && AsksToLeave(rules, data, s, h.entry, h.cost, high, n))
    ensures Justified(rules, data, ListTrade(s, h.entry, price, h.quantity, h.fee, fee,
                                             Profit(price, h.cost, h.quantity, fee), h.bought, n))
  {
    SaleIsFair(h, price, fee);
  }

  /** A sale at bar `n` for a cause is justified. */
  lemma SaleIsJustified(rules: Rules, data: History, s: Symbol, b: Book, n: nat, kept: Holding, high: real)
    requires n < |ClosesOf(data, s)| && AllJustified(rules, data, b.trades)
    requires Holds(rules, data, s, kept, n) && HeldOf(b, s) == kept.(high := high)
    requires rules.closeAtEndOfDay
             || (IsTop(high, kept.entry, ClosesOf(data, s), kept.bought, n)
                 && AsksToLeave(rules, data, s, kept.entry, kept.cost, high, n))
    ensures
      var after := SellAll(rules, b, TickOf(s, ClosesOf(data, s), n));
      AllJustified(rules, data, after.trades) && HeldOf(after, s).quantity == 0
  {
    var tick := TickOf(s, ClosesOf(data, s), n);
    var price := ExecutionPrice(rules, Sell, tick);
    var fee := Fee(rules, price, kept.quantity);
    OrdersAreAt(rules, s, ClosesOf(data, s), n, Sell, kept.quantity);
    RecordIsJustified(rules, data, s, kept, n, high, price, fee);
    var trade := ListTrade(s, kept.entry, price, kept.quantity, kept.fee, fee,
                           Profit(price, kept.cost, kept.quantity, fee), kept.bought, n);
    assert SellAll(rules, b, tick).trades == b.trades + [trade];
  }

  lemma PurchaseIsSound(rules: Rules, data: History, s: Symbol, b: Book, n: nat)
    requires n < |ClosesOf(data, s)| && AllJustified(rules, data, b.trades) && HeldOf(b, s).quantity == 0
    requires
      var closes := ClosesOf(data, s);
      AsksToBuy(rules, ClosesBefore(rules, closes, n), closes[n], true)
    ensures PassSound(rules, data, s, n + 1, BuyIn(rules, data, b, TickOf(s, ClosesOf(data, s), n)))
  {
    var closes := ClosesOf(data, s);
    var tick := TickOf(s, closes, n);
    var quantity := AdjustedQuantity(rules, rules.quantityPerTrade, BarsUntil(data, s, n));
    if quantity > 0 {
      OrdersAreAt(rules, s, closes, n, Buy, quantity);
      var price := ExecutionPrice(rules, Buy, tick);
      assert IsTop(price, price, closes, n, n);
    }
  }

  /** Nothing is held when the bar comes to its signal. */
  lemma FlatBarIsSound(rules: Rules, data: History, s: Symbol, b: Book, n: nat)
    requires n < |ClosesOf(data, s)| && AllJustified(rules, data, b.trades) && HeldOf(b, s).quantity == 0
    ensures PassSound(rules, data, s, n + 1, OnSignal(rules, data, b, TickOf(s, ClosesOf(data, s), n)))
  {
    BarSignalIff(rules, s, ClosesOf(data, s), n);
    if SignalAt(rules, TickOf(s, ClosesOf(data, s), n)) == Some(Buy) {
      PurchaseIsSound(rules, data, s, b, n);
    }
  }

  /** Without liquidation, what is held is sold when the bar asks for it, and else kept. */
  lemma HeldBarIsSound(rules: Rules, data: History, s: Symbol, b: Book, n: nat)
    requires SoundExits(rules) && !rules.closeAtEndOfDay && n < |ClosesOf(data, s)|
    requires PassSound(rules, data, s, n, b) && HeldOf(b, s).quantity > 0
    ensures PassSound(rules, data, s, n + 1, BarStep(rules, data, b, TickOf(s, ClosesOf(data, s), n)))
  {
    var closes, h := ClosesOf(data, s), HeldOf(b, s);
    var tick, high := TickOf(s, closes, n), Max(h.high, closes[n]);
    var raised := HighRaised(b, tick);
    TopRises(h.high, h.entry, closes, h.bought, n);
    StopIff(rules, data, raised, tick);
    BarSignalIff(rules, s, closes, n);
    assert HeldOf(raised, s) == h.(high := high);
    if AsksToLeave(rules, data, s, h.entry, h.cost, high, n) {
      SaleIsJustified(rules, data, s, raised, n, h, high);
    } else {
      KeptOneMore(rules, data, s, h, n, high);
    }
  }

  lemma KeptOneMore(rules: Rules, data: History, s: Symbol, h: Holding, n: nat, high: real)
    requires n < |ClosesOf(data, s)| && Holds(rules, data, s, h, n) && !rules.closeAtEndOfDay
    requires IsTop(high, h.entry, ClosesOf(data, s), h.bought, n)
    requires !AsksToLeave(rules, data, s, h.entry, h.cost, high, n)
    ensures Holds(rules, data, s, h.(high := high), n + 1)
  {
    forall k, other | h.bought < k <= n && IsTop(other, h.entry, ClosesOf(data, s), h.bought, k)
      ensures !AsksToLeave(rules, data, s, h.entry, h.cost, other, k)
    {
      if k == n {
        TopIsUnique(high, other, h.entry, ClosesOf(data, s), h.bought, n);
      }
    }
  }

  lemma BarIsSound(rules: Rules, data: History, s: Symbol, b: Book, n: nat)
    requires SoundExits(rules) && n < |ClosesOf(data, s)| && PassSound(rules, data, s, n, b)
    ensures PassSound(rules, data, s, n + 1, BarStep(rules, data, b, TickOf(s, ClosesOf(data, s), n)))
  {
    var tick := TickOf(s, ClosesOf(data, s), n);
    if HeldOf(b, s).quantity == 0 {
      FlatBarIsSound(rules, data, s, b, n);
    } else if rules.closeAtEndOfDay {
      SaleIsJustified(rules, data, s, b, n, HeldOf(b, s), HeldOf(b, s).high);
      FlatBarIsSound(rules, data, s, SellAll(rules, b, tick), n);
    } else {
      HeldBarIsSound(rules, data, s, b, n);
    }
  }

  /** Whatever the book holds, a bar ends a holding exactly when there is liquidation and it was bought at an earlier bar,
      or when the bar asks for it, and else leaves the trades as they are. */
  lemma BarLeavesIff(rules: Rules, data: History, s: Symbol, b: Book, n: nat)
    requires SoundExits(rules) && n < |ClosesOf(data, s)| && HeldOf(b, s).quantity > 0
    ensures
      var closes, h := ClosesOf(data, s), HeldOf(b, s);
      var after := BarStep(rules, data, b, TickOf(s, closes, n));
      if (rules.closeAtEndOfDay && n > h.bought)
         || AsksToLeave(rules, data, s, h.entry, h.cost, Max(h.high, closes[n]), n)
      then |after.trades| == |b.trades| + 1 && b.trades <= after.trades
      else after.trades == b.trades && HeldOf(after, s) == h.(high := Max(h.high, closes[n]))
  {
    var closes, h := ClosesOf(data, s), HeldOf(b, s);
    var tick := TickOf(s, closes, n);
    BarSignalIff(rules, s, closes, n);
    if !(rules.closeAtEndOfDay && n > h.bought) {
      var raised := HighRaised(b, tick);
      assert HeldOf(raised, s) == h.(high := Max(h.high, closes[n]));
      StopIff(rules, data, raised, tick);
    }
  }

  // ---------------------------------------------------------------- passes and runs

  /** A symbol with five closes or more has a bar for each, in order, and one with fewer has none. */
  lemma EveryCloseIsABar(data: History, s: Symbol, i: nat)
    ensures
      var closes, ticks := ClosesOf(data, s), Ticks(data, s);
      && |ticks| == (if |closes| >= 5 then |closes| else 0)
      && (i < |ticks| ==> ticks[i] == Tick(s, closes[i], None, closes, i))
  {}

  lemma BarKeepsOthers(rules: Rules, data: History, b: Book, tick: Tick)
    ensures OthersKept(tick.symbol, b, BarStep(rules, data, b, tick))
  {}

  lemma {:induction false} PassIsSound(rules: Rules, data: History, s: Symbol, b: Book, n: nat)
    requires SoundExits(rules) && n <= |Ticks(data, s)|
    requires AllJustified(rules, data, b.trades) && HeldOf(b, s).quantity == 0
    ensures
      var after := Fold(Stepper(rules, data), b, Ticks(data, s)[..n]);
      PassSound(rules, data, s, n, after) && OthersKept(s, b, after)
  {
    if n > 0 {
      var i, ticks := n - 1, Ticks(data, s);
      PassIsSound(rules, data, s, b, i);
      FoldTurn(Stepper(rules, data), b, ticks, i);
      var before := Fold(Stepper(rules, data), b, ticks[..i]);
      assert ticks[i] == TickOf(s, ClosesOf(data, s), i);
      BarIsSound(rules, data, s, before, i);
      BarKeepsOthers(rules, data, before, ticks[i]);
    }
  }

  /** In every run over distinct symbols each trade enters on a signal to buy and leaves at the first later bar that asks
      for it: with liquidation the next one, and else the first at or below the trailing line of the highest close held
      or the loss limit, or with a signal to sell. */
  lemma {:induction false} EveryTradeIsJustified(rules: Rules, data: History, symbols: seq<Symbol>, start: real)
    requires SoundExits(rules) && Distinct(symbols)
    ensures AllJustified(rules, data, RunList(rules, data, symbols, start).trades)
    ensures forall s :: s !in symbols ==> HeldOf(RunList(rules, data, symbols, start), s).quantity == 0
  {
    if symbols != [] {
      var n := |symbols| - 1;
      var b, s := RunList(rules, data, symbols[..n], start), symbols[n];
      EveryTradeIsJustified(rules, data, symbols[..n], start);
      FoldTurn(Passer(rules, data), Book(start, map[], [], []), symbols, n);
      assert symbols[..n + 1] == symbols;
      PassIsSound(rules, data, s, b, |Ticks(data, s)|);
      assert Ticks(data, s)[..|Ticks(data, s)|] == Ticks(data, s);
    }
  }

  // ---------------------------------------------------------------- purchases

  lemma BuyInIff(rules: Rules, data: History, b: Book, tick: Tick, quantity: int, price: real)
    requires quantity == AdjustedQuantity(rules, rules.quantityPerTrade, BarsUntil(data, tick.symbol, tick.index))
    requires price == ExecutionPrice(rules, Buy, tick)
    ensures
      var cost := price * quantity as real;
      var fee, after := cost * rules.feeRate, BuyIn(rules, data, b, tick);
      if quantity > 0 && cost * (1.0 + rules.feeRate) <= b.cash
      then
        && after.cash == b.cash - cost - fee && after.trades == b.trades && after.results == b.results
        && after.holdings == b.holdings[tick.symbol :=
             Holding(quantity, CostPerShare(price, fee, quantity), price, price, fee, tick.index)]
      else after == b
  {
    var fee := price * quantity as real * rules.feeRate;
    if quantity > 0 {
      assert Fee(rules, price, quantity) == fee;
      assert UnitCost(price, quantity, fee) == CostPerShare(price, fee, quantity);
    }
  }

  /** Whether a bar at which nothing is held ends with a purchase: exactly when it signals to buy, the volatility leaves
      a positive quantity of the fixed one, and the cash covers it with its fee. Otherwise nothing changes. */
  lemma BarBuysIff(rules: Rules, data: History, s: Symbol, b: Book, n: nat, quantity: int, price: real)
    requires n < |ClosesOf(data, s)| && HeldOf(b, s).quantity == 0 && rules.cautionLotRatio <= 1.0
    requires BacktestOrders.SizedTo(rules, KnownBars(data, s, n), rules.quantityPerTrade, quantity)
    requires OrderAt(rules, s, ClosesOf(data, s), n, Buy, quantity, price, price * quantity as real * rules.feeRate)
    ensures
      var closes, cost := ClosesOf(data, s), price * quantity as real;
      var fee, after := cost * rules.feeRate, BarStep(rules, data, b, TickOf(s, closes, n));
      if AsksToBuy(rules, ClosesBefore(rules, closes, n), closes[n], true) && quantity > 0
         && cost * (1.0 + rules.feeRate) <= b.cash
      then
        && after.cash == b.cash - cost - fee && after.trades == b.trades && after.results == b.results
        && after.holdings ==
             b.holdings[s := Holding(quantity, CostPerShare(price, fee, quantity), price, price, fee, n)]
      else after == b
  {
    var closes := ClosesOf(data, s);
    var tick, bars := TickOf(s, closes, n), BarsUntil(data, s, n);
    BarSignalIff(rules, s, closes, n);
    assert bars == KnownBars(data, s, n);
    BacktestOrders.AdjustedIsSized(rules, bars, rules.quantityPerTrade);
    BacktestOrders.SizedIsUnique(rules, bars, rules.quantityPerTrade, quantity,
                                 AdjustedQuantity(rules, rules.quantityPerTrade, bars));
    PriceIff(rules, Buy, tick, DelayedPrice(rules, tick), price);
    BuyInIff(rules, data, b, tick, quantity, price);
    assert BarStep(rules, data, b, tick) == OnSignal(rules, data, b, tick);
  }
}
