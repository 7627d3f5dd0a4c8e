/** What one backtest run does to the account (src/application/backtest_usecase.py,
    `simulate_timeseries_backtest`), as functions from one account to the next. The engine that
    updates its fields in place is `BacktestEngine`.

    Dates, times of day and security codes are numbers in the order in which the program sorts
    them. The functions that compute indicators are parameters. */
module Backtest {
  import opened Common
  import opened ExitLines
  import Allocation

  type Date = nat
  type Time = nat

  datatype DailyBar = DailyBar(high: real, low: real, close: real)

  datatype Assessment = Assessment(atr: real, level: Level)

  datatype Regime = NormalMarket | CautionMarket | DangerMarket

  datatype RawBand = Band(lower: real, upper: real)

  /** A price band around a moving average, which is not zero. */
  type Band = b: RawBand | b.lower + b.upper != 0.0 witness Band(1.0, 1.0)

  datatype MinuteBar = MinuteBar(time: Time, price: real)

  /** The assumptions and settings of a run. `assess`, `priceLimit` and `rsi` stand for
      `assess_volatility`, `calculate_price_limit` and `calculate_rsi`. */
  datatype Rules = Rules(
    feeRate: real, slippageBps: real, delay: nat, limitOrders: bool,
    buyThreshold: real, sellThreshold: real, noiseBand: real, trendStrength: real, stopLoss: real,
    minuteIndicators: bool, closeAtEndOfDay: bool, sizing: bool, atrStop: bool,
    targetPositions: Option<int>, quantityPerTrade: nat,
    maxOrderAmount: Option<real>, apiSoftLimit: Option<real>, orderUnit: int,
    minimumCloses: nat, entryThreshold: real, cautionThreshold: real, exitThreshold: real,
    cautionLotRatio: real, dangerBuysMinimum: bool, exitSettings: Settings,
    assess: seq<DailyBar> -> Option<Assessment>,
    priceLimit: seq<real> -> Option<Band>,
    rsi: seq<real> -> Option<real>)

  /** The data a run replays. `dates` and `universe` are the sorted dates of the daily selections and
      the sorted codes that occur anywhere. */
  datatype Market = Market(
    dates: seq<Date>,
    selected: map<Date, set<Symbol>>,
    universe: seq<Symbol>,
    closes: map<Symbol, map<Date, real>>,
    bars: map<Symbol, map<Date, DailyBar>>,
    minutes: map<Symbol, map<Date, seq<MinuteBar>>>,
    regimes: Option<map<Date, Regime>>)

  function Get<K, V>(m: map<K, V>, k: K, otherwise: V): V {
    if k in m then m[k] else otherwise
  }

  predicate Ascends(s: seq<nat>) {
    forall i, j :: 0 <= i < j < |s| ==> s[i] < s[j]
  }

  ghost predicate WellFormed(m: Market) {
    && Ascends(m.dates) && (forall d :: d in m.dates <==> d in m.selected)
    && Ascends(m.universe)
    && (forall s :: s in m.universe <==> s in m.closes || exists d :: d in m.selected && s in m.selected[d])
  }

  // ---------------------------------------------------------------- indicators

  /** The entries before `date`, in date order. */
  function Before<T>(m: map<Date, T>, date: Date): seq<T> {
    if date == 0 then []
    else Before(m, date - 1) + (if date - 1 in m then [m[date - 1]] else [])
  }

  /** They are those of the dates before it, in ascending order of the dates. */
  lemma {:induction false} BeforeIsInOrder<T>(m: map<Date, T>, date: Date)
    ensures
      var dates := Ascending(m.Keys, date);
      && |Before(m, date)| == |dates|
      && forall i :: 0 <= i < |dates| ==> dates[i] in m && Before(m, date)[i] == m[dates[i]]
  {
    if date > 0 {
      BeforeIsInOrder(m, date - 1);
    }
  }

  function LastOf<T>(xs: seq<T>, n: nat): seq<T> {
    if |xs| <= n then xs else xs[|xs| - n..]
  }

  function BarsBefore(m: Market, s: Symbol, date: Date): seq<DailyBar> {
    Before(Get(m.bars, s, map[]), date)
  }

  function ClosesBefore(m: Market, s: Symbol, date: Date): seq<real> {
    Before(Get(m.closes, s, map[]), date)
  }

  function RegimeOn(m: Market, date: Date): Regime {
    if m.regimes.Some? then Get(m.regimes.value, date, DangerMarket) else NormalMarket
  }

  // ---------------------------------------------------------------- quotes

  const CLOSE_OF_DAY: Time := 55_800
  const END_OF_DAY: Time := 86_400

  /** A quote: the symbol's price at position `index` of its prices of the day. A daily replay has no
      time of day. */
  datatype RawTick = Tick(symbol: Symbol, price: real, time: Option<Time>, prices: seq<real>, index: nat)

  type Tick = t: RawTick | t.index < |t.prices| witness Tick(0, 0.0, None, [0.0], 0)

  function PricesOf(bars: seq<MinuteBar>): seq<real> {
    seq(|bars|, i requires 0 <= i < |bars| => bars[i].price)
  }

  function PositionAt(bars: seq<MinuteBar>, t: Time): (r: Option<nat>)
    ensures r.Some? ==> r.value < |bars|
  {
    if bars == [] then None
    else if bars[|bars| - 1].time == t then Some(|bars| - 1)
    else PositionAt(bars[..|bars| - 1], t)
  }

  /** The bar found is the last one of the time asked for, and none is found exactly when no bar has it. */
  lemma {:induction false} PositionIsLast(bars: seq<MinuteBar>, t: Time)
    ensures
      match PositionAt(bars, t)
      case None => forall i :: 0 <= i < |bars| ==> bars[i].time != t
      case Some(at) => bars[at].time == t && forall i :: at < i < |bars| ==> bars[i].time != t
  {
    if bars != [] && bars[|bars| - 1].time != t {
      PositionIsLast(bars[..|bars| - 1], t);
    }
  }

  /** The quote of one symbol at one second of a day: from its minute bars when it has any, else its
      daily close at the end of trading. */
  function TickAt(m: Market, date: Date, t: Time, s: Symbol): Option<Tick> {
    var bars := Get(Get(m.minutes, s, map[]), date, []);
    if bars != [] then
      var at := PositionAt(bars, t);
      if at.Some? then Some(Tick(s, bars[at.value].price, Some(t), PricesOf(bars), at.value)) else None
    else if t == CLOSE_OF_DAY && date in Get(m.closes, s, map[]) then
      var close := m.closes[s][date];
      Some(Tick(s, close, None, [close], 0))
    else None
  }

  /** A symbol with minute bars on a date is quoted at their times only, at the last bar of each; one without is quoted
      once, at the close of the day, if its daily close is known. */
  lemma QuoteIff(m: Market, date: Date, t: Time, s: Symbol)
    ensures
      var bars, tick := Get(Get(m.minutes, s, map[]), date, []), TickAt(m, date, t, s);
      if bars == [] then
        if t == CLOSE_OF_DAY && s in m.closes && date in m.closes[s]
        then tick == Some(Tick(s, m.closes[s][date], None, [m.closes[s][date]], 0))
        else tick == None
      else
        match tick
        case None => forall i :: 0 <= i < |bars| ==> bars[i].time != t
        case Some(q) =>
          && q.symbol == s && q.time == Some(t) && q.index < |bars| == |q.prices|
          && bars[q.index] == MinuteBar(t, q.price) && (forall i :: q.index < i < |bars| ==> bars[i].time != t)
          && forall i :: 0 <= i < |bars| ==> q.prices[i] == bars[i].price
  {
    var bars := Get(Get(m.minutes, s, map[]), date, []);
    PositionIsLast(bars, t);
  }

  /** The quotes of the given symbols at one second of a day, in their order. */
  function TicksAt(m: Market, date: Date, t: Time, symbols: seq<Symbol>): seq<Tick> {
    if symbols == [] then []
    else
      var last := TickAt(m, date, t, symbols[|symbols| - 1]);
      TicksAt(m, date, t, symbols[..|symbols| - 1]) + (if last.Some? then [last.value] else [])
  }

  /** The quotes of a moment come in the order of their symbols, one for each symbol that is quoted. */
  lemma {:induction false} TicksAscend(m: Market, date: Date, t: Time, symbols: seq<Symbol>)
    requires Ascends(symbols)
    ensures
      var ticks := TicksAt(m, date, t, symbols);
      && (forall i, j :: 0 <= i < j < |ticks| ==> ticks[i].symbol < ticks[j].symbol)
      && (forall i :: 0 <= i < |ticks| ==> ticks[i].symbol in symbols)
      && (forall s :: s in symbols && TickAt(m, date, t, s).Some? ==> TickAt(m, date, t, s).value in ticks)
  {
    if symbols != [] {
      var rest, last := symbols[..|symbols| - 1], symbols[|symbols| - 1];
      TicksAscend(m, date, t, rest);
      QuoteIff(m, date, t, last);
      assert forall s :: s in symbols <==> s in rest || s == last;
      assert forall s :: s in rest ==> s < last;
    }
  }

  // ---------------------------------------------------------------- the account

  datatype Side = Buy | Sell

  datatype Note = NoNote | StopLossNote | AtrStopNote | EndOfDayNote

  datatype Signal = Signal(symbol: Symbol, side: Side, date: Date, time: Option<Time>, price: real,
                           signalPrice: real, delayedPrice: real, quantity: int, fee: real, note: Note)

  datatype Trade = Trade(symbol: Symbol, buyPrice: real, sellPrice: real, signalPrice: real, delayedPrice: real,
                         quantity: int, entryFee: real, exitFee: real, pnl: real,
                         entryDate: Date, exitDate: Date, entryTime: Option<Time>, exitTime: Option<Time>, high: real)

  /** The details recorded of the open positions. */
  datatype Entries = Entries(
    prices: map<Symbol, real>, highs: map<Symbol, real>, fees: map<Symbol, real>,
    dates: map<Symbol, Date>, times: map<Symbol, Time>)

  datatype Log = Log(results: seq<real>, history: seq<Trade>, signals: seq<Signal>)

  /** The account and its records. `order` lists the keys of `holdings` in insertion order. */
  datatype Account = Account(
    cash: real,
    order: seq<Symbol>,
    holdings: map<Symbol, int>,
    avgCost: map<Symbol, real>,
    entries: Entries,
    log: Log)

  function Opened(startingCash: real): Account {
    Account(startingCash, [], map[], map[], Entries(map[], map[], map[], map[], map[]), Log([], [], []))
  }

  function Held(a: Account, s: Symbol): int {
    Get(a.holdings, s, 0)
  }

  /** How many positions among the first `n` keys are open. */
  function OpenAmong(order: seq<Symbol>, holdings: map<Symbol, int>): nat {
    if order == [] then 0
    else OpenAmong(order[..|order| - 1], holdings) + (if Get(holdings, order[|order| - 1], 0) > 0 then 1 else 0)
  }

  function OpenPositions(a: Account): nat {
    OpenAmong(a.order, a.holdings)
  }

  // ---------------------------------------------------------------- execution

  function DelayedPrice(rules: Rules, tick: Tick): real {
    var i := tick.index + rules.delay;
    tick.prices[if i < |tick.prices| then i else |tick.prices| - 1]
  }

  function ExecutionPrice(rules: Rules, side: Side, tick: Tick): real {
    if rules.limitOrders then tick.price
    else
      var slippage := rules.slippageBps / 10_000.0;
      DelayedPrice(rules, tick) * (if side == Buy then 1.0 + slippage else 1.0 - slippage)
  }

  function Fee(rules: Rules, price: real, quantity: int): real {
    price * quantity as real * rules.feeRate
  }

  function Amount(price: real, quantity: int): real {
    price * quantity as real
  }

  function Profit(price: real, cost: real, quantity: int, fee: real): real {
    (price - cost) * quantity as real - fee
  }

  function Drop(e: Entries, s: Symbol): Entries {
    Entries(e.prices - {s}, e.highs - {s}, e.fees - {s}, e.dates - {s}, e.times - {s})
  }

  function Enter(e: Entries, s: Symbol, price: real, fee: real, date: Date, time: Option<Time>): Entries {
    Entries(e.prices[s := price], e.highs[s := price], e.fees[s := fee], e.dates[s := date],
            if time.Some? then e.times[s := time.value] else e.times)
  }

  /** The record of selling `quantity` at the execution price. */
  function TradeOf(rules: Rules, e: Entries, cost: real, quantity: int, date: Date, tick: Tick): Trade {
    var s, price := tick.symbol, ExecutionPrice(rules, Sell, tick);
    var fee, entry := Fee(rules, price, quantity), Get(e.prices, s, 0.0);
    Trade(s, entry, price, tick.price, DelayedPrice(rules, tick), quantity, Get(e.fees, s, 0.0), fee,
          Profit(price, cost, quantity, fee), Get(e.dates, s, 0), date,
          if s in e.times then Some(e.times[s]) else None, tick.time, Get(e.highs, s, entry))
  }

  function SellSignal(date: Date, tick: Tick, trade: Trade, note: Note): Signal {
    Signal(tick.symbol, Sell, date, tick.time, trade.sellPrice, tick.price, trade.delayedPrice, trade.quantity,
           trade.exitFee, note)
  }

  function LogSale(log: Log, trade: Trade, signal: Signal): Log {
    Log(log.results + [trade.pnl], log.history + [trade], log.signals + [signal])
  }

  /** Sells the whole position, when there is one: takes the proceeds, records the trade and forgets
      the details. The key stays with quantity zero. */
  function Close(rules: Rules, a: Account, date: Date, tick: Tick, note: Note): Account {
    var s, quantity := tick.symbol, Held(a, tick.symbol);
    if quantity <= 0 then a
    else
      var trade := TradeOf(rules, a.entries, Get(a.avgCost, s, 0.0), quantity, date, tick);
      Account(a.cash + (Amount(trade.sellPrice, quantity) - trade.exitFee),
              a.order, a.holdings[s := 0], a.avgCost[s := 0.0], Drop(a.entries, s),
              LogSale(a.log, trade, SellSignal(date, tick, trade, note)))
  }

  function UnitCost(price: real, quantity: int, fee: real): real
    requires quantity > 0
  {
    price + fee / quantity as real
  }

  function BuySignal(rules: Rules, date: Date, tick: Tick, quantity: int, price: real, fee: real): Signal {
    Signal(tick.symbol, Buy, date, tick.time, price, tick.price, DelayedPrice(rules, tick), quantity, fee, NoNote)
  }

  function LogPurchase(log: Log, signal: Signal): Log {
    Log(log.results, log.history, log.signals + [signal])
  }

  /** Buys into a symbol that is not held: pays price and fee and records the details. A new key is
      listed last. */
  function Open(rules: Rules, a: Account, date: Date, tick: Tick, quantity: int): Account
    requires quantity > 0
  {
    var s, price := tick.symbol, ExecutionPrice(rules, Buy, tick);
    var fee := Fee(rules, price, quantity);
    Account(a.cash - (Amount(price, quantity) + fee),
            if s in a.holdings then a.order else a.order + [s],
            a.holdings[s := quantity], a.avgCost[s := UnitCost(price, quantity, fee)],
            Enter(a.entries, s, price, fee, date, tick.time),
            LogPurchase(a.log, BuySignal(rules, date, tick, quantity, price, fee)))
  }

  // ---------------------------------------------------------------- stops and signals

  function RaiseTo(e: Entries, s: Symbol, price: real): Entries {
    e.(highs := e.highs[s := Max(Get(e.highs, s, Get(e.prices, s, 0.0)), price)])
  }

  /** Raises the highest price of a held symbol. */
  function Raise(a: Account, tick: Tick): Account {
    var s := tick.symbol;
    if Held(a, s) > 0
    then a.(entries := RaiseTo(a.entries, s, tick.price))
    else a
  }

  function ExitTrail(rules: Rules, entry: real, assessment: Assessment): Trail {
    Trail(entry, assessment.atr, assessment.level, rules.exitSettings)
  }

  predicate AtOrBelowLine(trail: Trail, high: real, price: real) {
    price <= LineFor(trail, high)
  }

  /** The trailing stop of an open position, from bars of earlier days only. */
  predicate AtrStopped(rules: Rules, m: Market, a: Account, date: Date, tick: Tick) {
    var s := tick.symbol;
    var bars := BarsBefore(m, s, date);
    if rules.atrStop && Held(a, s) > 0 && bars != [] then
      var assessment := rules.assess(bars);
      && assessment.Some?
      && AtOrBelowLine(ExitTrail(rules, Get(a.entries.prices, s, 0.0), assessment.value), Get(a.entries.highs, s, 0.0),
                       tick.price)
    else false
  }

  predicate LossStopped(rules: Rules, a: Account, tick: Tick) {
    && Held(a, tick.symbol) > 0 && rules.stopLoss > 0.0
    && tick.price <= Get(a.avgCost, tick.symbol, 0.0) * (1.0 - rules.stopLoss)
  }

  predicate NearerThan(price: real, mean: real, ratio: real)
    requires mean != 0.0
  {
    ratio > 0.0 && Abs(price - mean) / mean < ratio
  }

  /** The signal of a price against a band and a strength index. */
  function TradeSignal(price: real, lower: real, upper: real, rsi: real, entry: real, exit: real): Option<Side> {
    if price <= lower && rsi <= exit then Some(Sell)
    else if price >= upper && rsi >= entry then Some(Buy)
    else None
  }

  /** The prices from which a quote's indicators are computed: earlier quotes of the symbol, or closes
      of earlier days. */
  function IndicatorPrices(rules: Rules, m: Market, seen: map<Symbol, seq<real>>, date: Date, tick: Tick): seq<real> {
    LastOf(if rules.minuteIndicators && tick.time.Some? then Get(seen, tick.symbol, [])
           else ClosesBefore(m, tick.symbol, date), rules.minimumCloses)
  }

  function SignalFrom(rules: Rules, previous: seq<real>, price: real, regime: Regime): Option<Side> {
    if |previous| < rules.minimumCloses then None
    else
      var limit, rsi := rules.priceLimit(previous), rules.rsi(previous);
      if limit.None? || rsi.None? then None
      else
        var mean := (limit.value.lower + limit.value.upper) / 2.0;
        if NearerThan(price, mean, rules.noiseBand) || NearerThan(price, mean, rules.trendStrength) then None
        else TradeSignal(price, limit.value.lower * rules.buyThreshold, limit.value.upper * rules.sellThreshold,
                         rsi.value, if regime == NormalMarket then rules.entryThreshold else rules.cautionThreshold,
                         rules.exitThreshold)
  }

  function Evaluate(rules: Rules, m: Market, seen: map<Symbol, seq<real>>, date: Date, tick: Tick): Option<Side> {
    SignalFrom(rules, IndicatorPrices(rules, m, seen, date, tick), tick.price, RegimeOn(m, date))
  }

  // ---------------------------------------------------------------- sizing

  /** `adjust_quantity_for_volatility`: whole units of the quantity that the level allows. */
  function AdjustQuantity(base: int, level: Level, unit: int, cautionRatio: real, dangerBuysMinimum: bool): int {
    if level == Normal then base
    else if level == Danger then (if dangerBuysMinimum && base >= unit then unit else 0)
    else if base < unit || unit <= 0 then 0
    else
      var reduced := (base as real * cautionRatio).Floor / unit * unit;
      var atLeast := if reduced > unit then reduced else unit;
      if atLeast < base then atLeast else base
  }

  function AdjustedQuantity(rules: Rules, base: int, bars: seq<DailyBar>): int {
    if !rules.sizing || bars == [] then base
    else
      var assessment := rules.assess(bars);
      if assessment.None? then base
      else AdjustQuantity(base, assessment.value.level, rules.orderUnit, rules.cautionLotRatio, rules.dangerBuysMinimum)
  }

  function BuyQuantity(price: real, budget: real, unit: int): int {
    if price <= 0.0 || budget <= 0.0 || unit <= 0 then 0 else Allocation.WholeUnits(budget, price, unit)
  }

  function Capped(budget: real, limit: Option<real>): real {
    if limit.Some? then Min(budget, limit.value) else budget
  }

  /** An equal share of the cash for every free position, capped by the order limits. */
  function PositionBudget(rules: Rules, cash: real, open: nat): real
    requires rules.targetPositions.Some?
  {
    var free := rules.targetPositions.value - open;
    var slots := if free > 1 then free else 1;
    Capped(Capped(cash / slots as real, rules.maxOrderAmount), rules.apiSoftLimit)
  }

  predicate PositionsFull(rules: Rules, a: Account) {
    rules.targetPositions.Some? && OpenPositions(a) >= rules.targetPositions.value
  }

  /** The quantity that a buying signal asks for. */
  function OrderQuantity(rules: Rules, m: Market, a: Account, date: Date, tick: Tick): int {
    var base := if rules.targetPositions.Some?
                then BuyQuantity(tick.price, PositionBudget(rules, a.cash, OpenPositions(a)), rules.orderUnit)
                else rules.quantityPerTrade;
    AdjustedQuantity(rules, base, BarsBefore(m, tick.symbol, date))
  }

  /** A buying signal for a symbol that is not held, through every gate. */
  function TryBuy(rules: Rules, m: Market, a: Account, date: Date, tick: Tick): Account {
    if Held(a, tick.symbol) != 0 || PositionsFull(rules, a) then a
    else
      var quantity := OrderQuantity(rules, m, a, date, tick);
      if m.regimes.Some? && RegimeOn(m, date) == DangerMarket then a
      else if quantity <= 0 || a.cash < Amount(tick.price, quantity) then a
      else
        var price := ExecutionPrice(rules, Buy, tick);
        if a.cash < Amount(price, quantity) + Fee(rules, price, quantity) then a
        else Open(rules, a, date, tick, quantity)
  }

  // ---------------------------------------------------------------- one moment

  datatype Intent = Intent(tick: Tick, side: Side)

  /** The account after some quotes of one moment, the symbols stopped out and the signals given. */
  datatype Stage = Stage(account: Account, stopped: set<Symbol>, intents: seq<Intent>)

  /** The stop that an open position hits at a quote, if any. */
  function StopNote(rules: Rules, m: Market, a: Account, date: Date, tick: Tick): Option<Note> {
    if Held(a, tick.symbol) <= 0 then None
    else if AtrStopped(rules, m, a, date, tick) then Some(AtrStopNote)
    else if LossStopped(rules, a, tick) then Some(StopLossNote)
    else None
  }

  function ApplyStop(rules: Rules, a: Account, date: Date, tick: Tick, note: Option<Note>): Account {
    if note.Some? then Close(rules, a, date, tick, note.value) else a
  }

  function Stopped(rules: Rules, m: Market, st: Stage, date: Date, tick: Tick): Stage {
    var a := Raise(st.account, tick);
    var note := StopNote(rules, m, a, date, tick);
    Stage(ApplyStop(rules, a, date, tick, note), if note.Some? then st.stopped + {tick.symbol} else st.stopped,
          st.intents)
  }

  function Observe(rules: Rules, m: Market, seen: map<Symbol, seq<real>>, date: Date, st: Stage, tick: Tick): Stage {
    var after := Stopped(rules, m, st, date, tick);
    if tick.symbol in Get(m.selected, date, {}) && tick.symbol !in after.stopped then
      var signal := Evaluate(rules, m, seen, date, tick);
      if signal.Some? then after.(intents := after.intents + [Intent(tick, signal.value)]) else after
    else after
  }

  function Observer(rules: Rules, m: Market, seen: map<Symbol, seq<real>>, date: Date): (Stage, Tick) -> Stage {
    (st: Stage, tick: Tick) => Observe(rules, m, seen, date, st, tick)
  }

  function SellOn(rules: Rules, a: Account, date: Date, intent: Intent): Account {
    if intent.side == Sell then Close(rules, a, date, intent.tick, NoNote) else a
  }

  function Seller(rules: Rules, date: Date): (Account, Intent) -> Account {
    (a: Account, intent: Intent) => SellOn(rules, a, date, intent)
  }

  function BuyOn(rules: Rules, m: Market, a: Account, date: Date, intent: Intent): Account {
    if intent.side == Buy then TryBuy(rules, m, a, date, intent.tick) else a
  }

  function Buyer(rules: Rules, m: Market, date: Date): (Account, Intent) -> Account {
    (a: Account, intent: Intent) => BuyOn(rules, m, a, date, intent)
  }

  /** The prices seen so far with a time of day, and the latest price of each symbol. */
  datatype Feed = Feed(seen: map<Symbol, seq<real>>, last: map<Symbol, real>)

  function Record(feed: Feed, tick: Tick): Feed {
    Feed(if tick.time.Some? then feed.seen[tick.symbol := Get(feed.seen, tick.symbol, []) + [tick.price]]
         else feed.seen,
         feed.last[tick.symbol := tick.price])
  }

  function Recorder(): (Feed, Tick) -> Feed {
    (feed: Feed, tick: Tick) => Record(feed, tick)
  }

  function Closer(): (map<Symbol, Tick>, Tick) -> map<Symbol, Tick> {
    (closing: map<Symbol, Tick>, tick: Tick) => closing[tick.symbol := tick]
  }

  datatype Day = Day(account: Account, feed: Feed, closing: map<Symbol, Tick>)

  /** Stops and signals of one moment, then the sales, then the purchases. */
  function TradeMoment(rules: Rules, m: Market, seen: map<Symbol, seq<real>>, date: Date, a: Account,
                       ticks: seq<Tick>): Account {
    var st := Fold(Observer(rules, m, seen, date), Stage(a, {}, []), ticks);
    Fold(Buyer(rules, m, date), Fold(Seller(rules, date), st.account, st.intents), st.intents)
  }

  /** One moment of a day, with the prices recorded after trading. */
  function Moment(rules: Rules, m: Market, date: Date, day: Day, ticks: seq<Tick>): Day {
    Day(TradeMoment(rules, m, day.feed.seen, date, day.account, ticks),
        Fold(Recorder(), day.feed, ticks), Fold(Closer(), day.closing, ticks))
  }

  function Clock(rules: Rules, m: Market, date: Date): (Day, Time) -> Day {
    (day: Day, t: Time) => Moment(rules, m, date, day, TicksAt(m, date, t, m.universe))
  }

  // ---------------------------------------------------------------- days and runs

  /** The seconds before `t`. */
  function Seconds(t: nat): seq<Time> {
    seq(t, k => k)
  }

  /** The day up to time `t`. */
  function DayUntil(rules: Rules, m: Market, date: Date, a: Account, feed: Feed, t: nat): Day {
    Fold(Clock(rules, m, date), Day(a, feed, map[]), Seconds(t))
  }

  /** Closes a position when its symbol has been quoted today. */
  function CloseOn(rules: Rules, a: Account, date: Date, closing: map<Symbol, Tick>, s: Symbol): Account {
    if s in closing then Close(rules, a, date, closing[s], EndOfDayNote) else a
  }

  function Liquidator(rules: Rules, date: Date, closing: map<Symbol, Tick>): (Account, Symbol) -> Account {
    (a: Account, s: Symbol) => CloseOn(rules, a, date, closing, s)
  }

  datatype Run = Run(account: Account, feed: Feed)

  function EndDay(rules: Rules, date: Date, day: Day): Account {
    if rules.closeAtEndOfDay then Fold(Liquidator(rules, date, day.closing), day.account, day.account.order)
      else day.account
  }

  function RunDate(rules: Rules, m: Market, run: Run, date: Date): Run {
    var day := DayUntil(rules, m, date, run.account, run.feed, END_OF_DAY);
    Run(EndDay(rules, date, day), day.feed)
  }

  function Runner(rules: Rules, m: Market): (Run, Date) -> Run {
    (run: Run, date: Date) => RunDate(rules, m, run, date)
  }

  function RunDates(rules: Rules, m: Market, startingCash: real, dates: seq<Date>): Run {
    Fold(Runner(rules, m), Run(Opened(startingCash), Feed(map[], map[])), dates)
  }

  /** Cash and open positions at their latest prices. */
  function Equity(a: Account, last: map<Symbol, real>, keys: seq<Symbol>): real {
    if keys == [] then a.cash
    else
      var s := keys[|keys| - 1];
      Equity(a, last, keys[..|keys| - 1]) +
      (if Held(a, s) > 0 && s in last then Held(a, s) as real * last[s] else 0.0)
  }
}
