/** The backtest engine (src/application/backtest_usecase.py, `simulate_timeseries_backtest`), which
    updates cash, holdings and records in place. Every method is proved against the function of the
    same step in `Backtest`, so that what `BacktestLedger`, `BacktestRuns` and `BacktestLookAhead`
    prove of those functions holds of the engine. */
module BacktestEngine {
  import opened Common
  import opened Backtest
  import opened BacktestLedger

  class Engine {
    var cash: real
    var order: seq<Symbol>
    var holdings: map<Symbol, int>
    var avgCost: map<Symbol, real>
    var entryPrices: map<Symbol, real>
    var highs: map<Symbol, real>
    var entryFees: map<Symbol, real>
    var buyDates: map<Symbol, Date>
    var buyTimes: map<Symbol, Time>
    var results: seq<real>
    var history: seq<Trade>
    var signals: seq<Signal>
    var seen: map<Symbol, seq<real>>
    var last: map<Symbol, real>

    ghost function Details(): Entries
      reads `entryPrices, `highs, `entryFees, `buyDates, `buyTimes
    {
      Entries(entryPrices, highs, entryFees, buyDates, buyTimes)
    }

    ghost function Journal(): Log
      reads `results, `history, `signals
    {
      Log(results, history, signals)
    }

    ghost function View(): Account
      reads `cash, `order, `holdings, `avgCost, `entryPrices, `highs, `entryFees, `buyDates, `buyTimes, `results,
        `history, `signals
    {
      Account(cash, order, holdings, avgCost, Details(), Journal())
    }

    ghost function Records(): Feed
      reads `seen, `last
    {
      Feed(seen, last)
    }

    /** The position maps hold keys for exactly the open positions, so that no lookup can miss. */
    ghost predicate Valid()
      reads `cash, `order, `holdings, `avgCost, `entryPrices, `highs, `entryFees, `buyDates, `buyTimes, `results,
        `history, `signals
    {
      KeysSound(View())
    }

    constructor (startingCash: real)
      ensures Valid() && View() == Opened(startingCash) && Records() == Feed(map[], map[])
    {
      cash, order := startingCash, [];
      holdings, avgCost, entryPrices, highs, entryFees := map[], map[], map[], map[], map[];
      buyDates, buyTimes := map[], map[];
      results, history, signals := [], [], [];
      seen, last := map[], map[];
    }

    method RecordSale(trade: Trade, signal: Signal)
      modifies this`results, this`history, this`signals
      ensures Journal() == LogSale(old(Journal()), trade, signal)
    {
      results := results + [trade.pnl];
      history := history + [trade];
      signals := signals + [signal];
    }

    method RecordPurchase(signal: Signal)
      modifies this`signals
      ensures Journal() == LogPurchase(old(Journal()), signal)
    {
      signals := signals + [signal];
    }

    method DropDetails(s: Symbol)
      modifies this`entryPrices, this`highs, this`entryFees, this`buyDates, this`buyTimes
      ensures Details() == Drop(old(Details()), s)
    {
      entryPrices := entryPrices - {s};
      highs := highs - {s};
      entryFees := entryFees - {s};
      buyDates := buyDates - {s};
      buyTimes := buyTimes - {s};
    }

    method EnterDetails(s: Symbol, price: real, fee: real, date: Date, time: Option<Time>)
      modifies this`entryPrices, this`highs, this`entryFees, this`buyDates, this`buyTimes
      ensures Details() == Enter(old(Details()), s, price, fee, date, time)
    {
      entryPrices := entryPrices[s := price];
      highs := highs[s := price];
      entryFees := entryFees[s := fee];
      buyDates := buyDates[s := date];
      if time.Some? {
        buyTimes := buyTimes[s := time.value];
      }
    }

    ghost predicate Recorded(s: Symbol)
      reads `avgCost, `entryPrices, `highs, `entryFees, `buyDates
    {
      s in avgCost && s in entryPrices && s in highs && s in entryFees && s in buyDates
    }

    method SaleOf(rules: Rules, date: Date, tick: Tick) returns (trade: Trade)
      requires tick.symbol in holdings && Recorded(tick.symbol)
      ensures trade == TradeOf(rules, Details(), avgCost[tick.symbol], holdings[tick.symbol], date, tick)
    {
      var s := tick.symbol;
      var price := ExecutionPrice(rules, Sell, tick);
      var fee := Fee(rules, price, holdings[s]);
      trade := Trade(s, entryPrices[s], price, tick.price, DelayedPrice(rules, tick), holdings[s], entryFees[s], fee,
                     Profit(price, avgCost[s], holdings[s], fee), buyDates[s], date,
                     if s in buyTimes then Some(buyTimes[s]) else None, tick.time, highs[s]);
    }

    method SellPosition(rules: Rules, date: Date, tick: Tick, note: Note)
      requires tick.symbol in holdings && holdings[tick.symbol] > 0 && Recorded(tick.symbol)
      modifies `cash, `order, `holdings, `avgCost, `entryPrices, `highs, `entryFees, `buyDates, `buyTimes, `results,
        `history, `signals
      ensures View() == Close(rules, old(View()), date, tick, note)
    {
      var s, quantity := tick.symbol, holdings[tick.symbol];
      var trade := SaleOf(rules, date, tick);
      cash := cash + (Amount(trade.sellPrice, quantity) - trade.exitFee);
      RecordSale(trade, SellSignal(date, tick, trade, note));
      holdings := holdings[s := 0];
      avgCost := avgCost[s := 0.0];
      DropDetails(s);
    }

    method ClosePosition(rules: Rules, date: Date, tick: Tick, note: Note)
      requires Valid()
      modifies `cash, `order, `holdings, `avgCost, `entryPrices, `highs, `entryFees, `buyDates, `buyTimes, `results,
        `history, `signals
      ensures Valid() && View() == Close(rules, old(View()), date, tick, note)
    {
      CloseKeepsKeys(rules, View(), date, tick, note);
      if tick.symbol in holdings && holdings[tick.symbol] > 0 {
        SellPosition(rules, date, tick, note);
      }
    }

    method RaiseTo(s: Symbol, price: real)
      requires s in entryPrices && s in highs
      modifies `highs
      ensures Details() == Backtest.RaiseTo(old(Details()), s, price)
    {
      highs := highs[s := Max(highs[s], price)];
    }

    method RaiseHigh(tick: Tick)
      requires Valid()
      modifies `highs
      ensures Valid() && View() == Raise(old(View()), tick)
    {
      ghost var raised := Raise(View(), tick);
      RaiseKeepsKeys(View(), tick);
      if tick.symbol in holdings && holdings[tick.symbol] > 0 {
        RaiseTo(tick.symbol, tick.price);
      }
      assert View() == raised;
    }

    method HitsTrailingStop(rules: Rules, m: Market, date: Date, tick: Tick) returns (hit: bool)
      requires Valid() && tick.symbol in holdings && holdings[tick.symbol] > 0
      ensures hit == AtrStopped(rules, m, View(), date, tick)
    {
      var s := tick.symbol;
      var bars := BarsBefore(m, s, date);
      if !rules.atrStop || bars == [] {
        return false;
      }
      var assessment := rules.assess(bars);
      if assessment.None? {
        return false;
      }
      hit := AtOrBelowLine(ExitTrail(rules, entryPrices[s], assessment.value), highs[s], tick.price);
    }

    method HitsLossStop(rules: Rules, tick: Tick) returns (hit: bool)
      requires Valid() && tick.symbol in holdings && holdings[tick.symbol] > 0
      ensures hit == LossStopped(rules, View(), tick)
    {
      hit := rules.stopLoss > 0.0 && tick.price <= avgCost[tick.symbol] * (1.0 - rules.stopLoss);
    }

    method StopHit(rules: Rules, m: Market, date: Date, tick: Tick) returns (note: Option<Note>)
      requires Valid()
      ensures note == StopNote(rules, m, View(), date, tick)
    {
      if tick.symbol !in holdings || holdings[tick.symbol] <= 0 {
        return None;
      }
      var atr := HitsTrailingStop(rules, m, date, tick);
      var loss := HitsLossStop(rules, tick);
      note := if atr then Some(AtrStopNote) else if loss then Some(StopLossNote) else None;
    }

    /** Raises the high of a held symbol and closes its position when a stop is hit. */
    method CheckStops(rules: Rules, m: Market, date: Date, tick: Tick) returns (note: Option<Note>)
      requires Valid()
      modifies `cash, `order, `holdings, `avgCost, `entryPrices, `highs, `entryFees, `buyDates, `buyTimes, `results,
        `history, `signals
      ensures Valid()
      ensures note == StopNote(rules, m, Raise(old(View()), tick), date, tick)
      ensures View() == ApplyStop(rules, Raise(old(View()), tick), date, tick, note)
    {
      RaiseHigh(tick);
      note := StopHit(rules, m, date, tick);
      if note.Some? {
        ClosePosition(rules, date, tick, note.value);
      }
    }

    method QuantityToBuy(rules: Rules, m: Market, date: Date, tick: Tick) returns (quantity: int)
      ensures quantity == if PositionsFull(rules, View()) then 0 else OrderQuantity(rules, m, View(), date, tick)
    {
      var base := rules.quantityPerTrade;
      if rules.targetPositions.Some? {
        var open := OpenAmong(order, holdings);
        if open >= rules.targetPositions.value {
          return 0;
        }
        base := BuyQuantity(tick.price, PositionBudget(rules, cash, open), rules.orderUnit);
      }
      quantity := AdjustedQuantity(rules, base, BarsBefore(m, tick.symbol, date));
    }

    /** Pays for a position and holds it. A new key is listed last. */
    method PayFor(s: Symbol, price: real, quantity: int, fee: real)
      requires quantity > 0
      modifies `cash, `order, `holdings, `avgCost
      ensures cash == old(cash) - (Amount(price, quantity) + fee)
      ensures holdings == old(holdings)[s := quantity]
      ensures order == if s in old(holdings) then old(order) else old(order) + [s]
      ensures avgCost == old(avgCost)[s := UnitCost(price, quantity, fee)]
    {
      cash := cash - (Amount(price, quantity) + fee);
      if s !in holdings {
        order := order + [s];
      }
      holdings := holdings[s := quantity];
      avgCost := avgCost[s := UnitCost(price, quantity, fee)];
    }

    method BuyPosition(rules: Rules, date: Date, tick: Tick, quantity: int)
      requires quantity > 0
      modifies `cash, `order, `holdings, `avgCost, `entryPrices, `highs, `entryFees, `buyDates, `buyTimes, `signals
      ensures View() == Open(rules, old(View()), date, tick, quantity)
    {
      ghost var bought, details, journal := Open(rules, View(), date, tick, quantity), Details(), Journal();
      var price := ExecutionPrice(rules, Side.Buy, tick);
      var fee := Fee(rules, price, quantity);
      var signal := BuySignal(rules, date, tick, quantity, price, fee);
      PayFor(tick.symbol, price, quantity, fee);
      assert Details() == details && Journal() == journal;
      EnterDetails(tick.symbol, price, fee, date, tick.time);
      assert Journal() == journal;
      RecordPurchase(signal);
      assert Details() == Enter(details, tick.symbol, price, fee, date, tick.time)
        && Journal() == LogPurchase(journal, signal);
      assert cash == bought.cash && order == bought.order && holdings == bought.holdings && avgCost == bought.avgCost;
    }

    method OpenPosition(rules: Rules, date: Date, tick: Tick, quantity: int)
      requires Valid() && quantity > 0
      modifies `cash, `order, `holdings, `avgCost, `entryPrices, `highs, `entryFees, `buyDates, `buyTimes, `results,
        `history, `signals
      ensures Valid() && View() == Open(rules, old(View()), date, tick, quantity)
    {
      OpenKeepsKeys(rules, View(), date, tick, quantity);
      BuyPosition(rules, date, tick, quantity);
    }

    method Buy(rules: Rules, m: Market, date: Date, tick: Tick)
      requires Valid()
      modifies `cash, `order, `holdings, `avgCost, `entryPrices, `highs, `entryFees, `buyDates, `buyTimes, `results,
        `history, `signals
      ensures Valid() && View() == TryBuy(rules, m, old(View()), date, tick)
    {
      if (if tick.symbol in holdings then holdings[tick.symbol] else 0) != 0 {
        return;
      }
      var quantity := QuantityToBuy(rules, m, date, tick);
      if m.regimes.Some? && RegimeOn(m, date) == DangerMarket {
        return;
      }
      if quantity <= 0 || cash < Amount(tick.price, quantity) {
        return;
      }
      var price := ExecutionPrice(rules, Side.Buy, tick);
      if cash < Amount(price, quantity) + Fee(rules, price, quantity) {
        return;
      }
      OpenPosition(rules, date, tick, quantity);
    }

    /** Stops first, quote by quote, collecting the signals of the symbols not stopped out. */
    method CollectSignals(rules: Rules, m: Market, date: Date, ticks: seq<Tick>) returns (intents: seq<Intent>)
      requires Valid()
      modifies `cash, `order, `holdings, `avgCost, `entryPrices, `highs, `entryFees, `buyDates, `buyTimes, `results,
        `history, `signals
      ensures Valid()
      ensures
        var st := Fold(Observer(rules, m, old(seen), date), Stage(old(View()), {}, []), ticks);
        View() == st.account && intents == st.intents
    {
      ghost var observe := Observer(rules, m, seen, date);
      ghost var start := Stage(View(), {}, []);
      var stopped: set<Symbol> := {};
      intents := [];
      for k := 0 to |ticks|
        invariant Valid()
        invariant Stage(View(), stopped, intents) == Fold(observe, start, ticks[..k])
      {
        FoldTurn(observe, start, ticks, k);
        ghost var before := Stage(View(), stopped, intents);
        var note := CheckStops(rules, m, date, ticks[k]);
        if note.Some? {
          stopped := stopped + {ticks[k].symbol};
        }
        assert Stage(View(), stopped, intents) == Stopped(rules, m, before, date, ticks[k]);
        if ticks[k].symbol in Get(m.selected, date, {}) && ticks[k].symbol !in stopped {
          var signal := Evaluate(rules, m, seen, date, ticks[k]);
          if signal.Some? {
            intents := intents + [Intent(ticks[k], signal.value)];
          }
        }
      }
      assert ticks[..|ticks|] == ticks;
    }

    method ExecuteSignals(rules: Rules, m: Market, date: Date, intents: seq<Intent>)
      requires Valid()
      modifies `cash, `order, `holdings, `avgCost, `entryPrices, `highs, `entryFees, `buyDates, `buyTimes, `results,
        `history, `signals
      ensures Valid()
      ensures View() == Fold(Buyer(rules, m, date), Fold(Seller(rules, date), old(View()), intents), intents)
    {
      ghost var sell, buy := Seller(rules, date), Buyer(rules, m, date);
      ghost var start := View();
      for k := 0 to |intents|
        invariant Valid()
        invariant View() == Fold(sell, start, intents[..k])
      {
        FoldTurn(sell, start, intents, k);
        if intents[k].side == Sell {
          ClosePosition(rules, date, intents[k].tick, NoNote);
        }
      }
      assert intents[..|intents|] == intents;
      ghost var sold := View();
      for k := 0 to |intents|
        invariant Valid()
        invariant View() == Fold(buy, sold, intents[..k])
      {
        FoldTurn(buy, sold, intents, k);
        if intents[k].side == Side.Buy {
          Buy(rules, m, date, intents[k].tick);
        }
      }
    }

    method RecordTicks(ticks: seq<Tick>, closing: map<Symbol, Tick>) returns (closed: map<Symbol, Tick>)
      requires Valid()
      modifies this`seen, this`last
      ensures Valid() && View() == old(View())
      ensures Records() == Fold(Recorder(), old(Records()), ticks)
      ensures closed == Fold(Closer(), closing, ticks)
    {
      ghost var start := Records();
      closed := closing;
      for k := 0 to |ticks|
        invariant View() == old(View())
        invariant Records() == Fold(Recorder(), start, ticks[..k])
        invariant closed == Fold(Closer(), closing, ticks[..k])
      {
        FoldTurn(Recorder(), start, ticks, k);
        FoldTurn(Closer(), closing, ticks, k);
        var s := ticks[k].symbol;
        if ticks[k].time.Some? {
          seen := seen[s := Get(seen, s, []) + [ticks[k].price]];
        }
        last := last[s := ticks[k].price];
        closed := closed[s := ticks[k]];
      }
      assert ticks[..|ticks|] == ticks;
    }

    method RunMoment(rules: Rules, m: Market, date: Date, ticks: seq<Tick>, closing: map<Symbol, Tick>)
      returns (closed: map<Symbol, Tick>)
      requires Valid()
      modifies this
      ensures Valid()
      ensures Day(View(), Records(), closed) == Moment(rules, m, date, Day(old(View()), old(Records()), closing), ticks)
    {
      var intents := CollectSignals(rules, m, date, ticks);
      ExecuteSignals(rules, m, date, intents);
      closed := RecordTicks(ticks, closing);
    }

    method Liquidate(rules: Rules, date: Date, closing: map<Symbol, Tick>)
      requires Valid()
      modifies `cash, `order, `holdings, `avgCost, `entryPrices, `highs, `entryFees, `buyDates, `buyTimes, `results,
        `history, `signals
      ensures Valid()
      ensures View() == Fold(Liquidator(rules, date, closing), old(View()), old(order))
    {
      ghost var liquidate, start := Liquidator(rules, date, closing), View();
      var keys := order;
      for k := 0 to |keys|
        invariant Valid()
        invariant View() == Fold(liquidate, start, keys[..k])
      {
        FoldTurn(liquidate, start, keys, k);
        if keys[k] in closing {
          ClosePosition(rules, date, closing[keys[k]], EndOfDayNote);
        }
      }
      assert keys[..|keys|] == keys;
    }

    method TradeDay(rules: Rules, m: Market, date: Date)
      requires Valid()
      modifies this
      ensures Valid()
      ensures Run(View(), Records()) == RunDate(rules, m, Run(old(View()), old(Records())), date)
    {
      var closing: map<Symbol, Tick> := map[];
      for t := 0 to END_OF_DAY
        invariant Valid()
        invariant Day(View(), Records(), closing) == DayUntil(rules, m, date, old(View()), old(Records()), t)
      {
        DayTurn(rules, m, date, old(View()), old(Records()), t);
        closing := RunMoment(rules, m, date, TicksAt(m, date, t, m.universe), closing);
      }
      if rules.closeAtEndOfDay {
        Liquidate(rules, date, closing);
      }
    }
  }

  /** A whole run, date by date. */
  method Simulate(rules: Rules, m: Market, startingCash: real) returns (engine: Engine)
    ensures fresh(engine) && engine.Valid()
    ensures Run(engine.View(), engine.Records()) == RunDates(rules, m, startingCash, m.dates)
  {
    engine := new Engine(startingCash);
    ghost var runner, start := Runner(rules, m), Run(Opened(startingCash), Feed(map[], map[]));
    for k := 0 to |m.dates|
      invariant engine.Valid()
      invariant Run(engine.View(), engine.Records()) == Fold(runner, start, m.dates[..k])
    {
      FoldTurn(runner, start, m.dates, k);
      engine.TradeDay(rules, m, m.dates[k]);
    }
    assert m.dates[..|m.dates|] == m.dates;
  }
}
