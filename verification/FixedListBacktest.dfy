/** The backtest of a fixed list of symbols, one after the other
    (src/application/backtest_usecase.py, `simulate_backtest`). */
module FixedListBacktest {
  import opened Common
  import opened Backtest
  import opened Indicators

  /** What is held of a symbol. `bought` is the bar of the purchase. */
  datatype Holding = Holding(quantity: int, cost: real, entry: real, high: real, fee: real, bought: int)

  const NOTHING: Holding := Holding(0, 0.0, 0.0, 0.0, 0.0, -1)

  datatype ListTrade = ListTrade(symbol: Symbol, buyPrice: real, sellPrice: real, quantity: int,
                                 entryFee: real, exitFee: real, pnl: real, entryDay: int, exitDay: nat)

  datatype Book = Book(cash: real, holdings: map<Symbol, Holding>, results: seq<real>, trades: seq<ListTrade>)

  datatype History = History(closes: map<Symbol, seq<real>>, bars: map<Symbol, seq<DailyBar>>)

  function HeldOf(b: Book, s: Symbol): Holding {
    Get(b.holdings, s, NOTHING)
  }

  function TickOf(s: Symbol, closes: seq<real>, index: nat): Tick
    requires index < |closes|
  {
    Tick(s, closes[index], None, closes, index)
  }

  /** The whole holding is sold at a bar. */
  function SellAll(rules: Rules, b: Book, tick: Tick): Book {
    var s, h := tick.symbol, HeldOf(b, tick.symbol);
    var price := ExecutionPrice(rules, Sell, tick);
    var fee := Fee(rules, price, h.quantity);
    var pnl := Profit(price, h.cost, h.quantity, fee);
    Book(b.cash + (Amount(price, h.quantity) - fee), b.holdings[s := NOTHING], b.results + [pnl],
         b.trades + [ListTrade(s, h.entry, price, h.quantity, h.fee, fee, pnl, h.bought, tick.index)])
  }

  /** With liquidation, a holding from an earlier bar is sold first. */
  function Liquidated(rules: Rules, b: Book, tick: Tick): Book {
    var h := HeldOf(b, tick.symbol);
    if rules.closeAtEndOfDay && h.quantity > 0 && tick.index > h.bought then SellAll(rules, b, tick) else b
  }

  function HighRaised(b: Book, tick: Tick): Book {
    var h := HeldOf(b, tick.symbol);
    if h.quantity > 0 then b.(holdings := b.holdings[tick.symbol := h.(high := Max(h.high, tick.price))]) else b
  }

  /** The bars up to and including the current one. */
  function BarsUntil(data: History, s: Symbol, index: nat): seq<DailyBar> {
    var bars := Get(data.bars, s, []);
    if |bars| <= index + 1 then bars else bars[..index + 1]
  }

  predicate StopHit(rules: Rules, data: History, b: Book, tick: Tick) {
    var h, bars := HeldOf(b, tick.symbol), BarsUntil(data, tick.symbol, tick.index);
    && h.quantity > 0
    && ((rules.stopLoss > 0.0 && tick.price <= h.cost * (1.0 - rules.stopLoss))
        || (rules.atrStop && bars != [] &&
            var assessment := rules.assess(bars);
            assessment.Some? && AtOrBelowLine(ExitTrail(rules, h.entry, assessment.value), h.high, tick.price)))
  }

  function SignalAt(rules: Rules, tick: Tick): Option<Side> {
    SignalFrom(rules, LastOf(tick.prices[..tick.index], rules.minimumCloses), tick.price, NormalMarket)
  }

  function BuyIn(rules: Rules, data: History, b: Book, tick: Tick): Book {
    var quantity := AdjustedQuantity(rules, rules.quantityPerTrade, BarsUntil(data, tick.symbol, tick.index));
    var price := ExecutionPrice(rules, Buy, tick);
    if quantity <= 0 || b.cash < Amount(price, quantity) * (1.0 + rules.feeRate) then b
    else
      var fee := Fee(rules, price, quantity);
      Book(b.cash - (Amount(price, quantity) + fee),
           b.holdings[tick.symbol := Holding(quantity, UnitCost(price, quantity, fee), price, price, fee, tick.index)],
           b.results, b.trades)
  }

  function OnSignal(rules: Rules, data: History, b: Book, tick: Tick): Book {
    var signal := SignalAt(rules, tick);
    if signal == Some(Buy) && HeldOf(b, tick.symbol).quantity == 0 then BuyIn(rules, data, b, tick)
    else if signal == Some(Sell) && HeldOf(b, tick.symbol).quantity > 0 then SellAll(rules, b, tick)
    else b
  }

  /** One bar of one symbol: liquidation, high, stops, and the signal unless a stop was hit. */
  function BarStep(rules: Rules, data: History, b: Book, tick: Tick): Book {
    var raised := HighRaised(Liquidated(rules, b, tick), tick);
    if StopHit(rules, data, raised, tick) then SellAll(rules, raised, tick) else OnSignal(rules, data, raised, tick)
  }

  /** The bars of a symbol, of which there must be five. */
  function Ticks(data: History, s: Symbol): seq<Tick> {
    var closes := Get(data.closes, s, []);
    if |closes| < 5 then [] else seq(|closes|, i requires 0 <= i < |closes| => TickOf(s, closes, i))
  }

  function Stepper(rules: Rules, data: History): (Book, Tick) -> Book {
    (b: Book, tick: Tick) => BarStep(rules, data, b, tick)
  }

  function Pass(rules: Rules, data: History, b: Book, s: Symbol): Book {
    Fold(Stepper(rules, data), b, Ticks(data, s))
  }

  function Passer(rules: Rules, data: History): (Book, Symbol) -> Book {
    (b: Book, s: Symbol) => Pass(rules, data, b, s)
  }

  function RunList(rules: Rules, data: History, symbols: seq<Symbol>, start: real): Book {
    Fold(Passer(rules, data), Book(start, map[], [], []), symbols)
  }

  // ---------------------------------------------------------------- the run, step by step

  method RunBar(rules: Rules, data: History, before: Book, tick: Tick) returns (book: Book)
    ensures book == BarStep(rules, data, before, tick)
  {
    book := before;
    var s := tick.symbol;
    if rules.closeAtEndOfDay && HeldOf(book, s).quantity > 0 && tick.index > HeldOf(book, s).bought {
      book := SellAll(rules, book, tick);
    }
    if HeldOf(book, s).quantity > 0 {
      book := book.(holdings := book.holdings[s := HeldOf(book, s).(high := Max(HeldOf(book, s).high, tick.price))]);
    }
    if StopHit(rules, data, book, tick) {
      return SellAll(rules, book, tick);
    }
    var signal := SignalAt(rules, tick);
    if signal == Some(Side.Buy) && HeldOf(book, s).quantity == 0 {
      book := BuyIn(rules, data, book, tick);
    } else if signal == Some(Sell) && HeldOf(book, s).quantity > 0 {
      book := SellAll(rules, book, tick);
    }
  }

  method SimulateList(rules: Rules, data: History, symbols: seq<Symbol>, start: real) returns (book: Book)
    ensures book == RunList(rules, data, symbols, start)
  {
    book := Book(start, map[], [], []);
    for k := 0 to |symbols|
      invariant book == RunList(rules, data, symbols[..k], start)
    {
      FoldTurn(Passer(rules, data), Book(start, map[], [], []), symbols, k);
      var ticks := Ticks(data, symbols[k]);
      ghost var before := book;
      for i := 0 to |ticks|
        invariant book == Fold(Stepper(rules, data), before, ticks[..i])
      {
        FoldTurn(Stepper(rules, data), before, ticks, i);
        book := RunBar(rules, data, book, ticks[i]);
      }
      assert ticks[..|ticks|] == ticks;
    }
    assert symbols[..|symbols|] == symbols;
  }

  // ---------------------------------------------------------------- one bar from entry to exit

  ghost predicate OneBarTrades(trades: seq<ListTrade>) {
    forall i :: 0 <= i < |trades| ==> trades[i].exitDay == trades[i].entryDay + 1
  }

  /** All trades so far took one bar, and what is held of the symbol was bought at the last bar before `next`. */
  ghost predicate FreshlyBought(s: Symbol, next: nat, b: Book) {
    && OneBarTrades(b.trades)
    && (HeldOf(b, s).quantity > 0 ==> HeldOf(b, s).bought == next - 1)
  }

  ghost predicate OthersKept(s: Symbol, b: Book, c: Book) {
    forall t :: t != s ==> HeldOf(c, t) == HeldOf(b, t)
  }

  lemma BarTradesOneBar(rules: Rules, data: History, b: Book, tick: Tick)
    requires rules.closeAtEndOfDay && FreshlyBought(tick.symbol, tick.index, b)
    ensures FreshlyBought(tick.symbol, tick.index + 1, BarStep(rules, data, b, tick))
    ensures OthersKept(tick.symbol, b, BarStep(rules, data, b, tick))
  {
    var flat := Liquidated(rules, b, tick);
    assert HeldOf(flat, tick.symbol).quantity <= 0 && OneBarTrades(flat.trades);
    assert HighRaised(flat, tick) == flat;
  }

  lemma {:induction false} PassTradesOneBar(rules: Rules, data: History, b: Book, s: Symbol, n: nat)
    requires rules.closeAtEndOfDay && OneBarTrades(b.trades) && HeldOf(b, s).quantity <= 0 && n <= |Ticks(data, s)|
    ensures
      var after := Fold(Stepper(rules, data), b, Ticks(data, s)[..n]);
      FreshlyBought(s, n, after) && OthersKept(s, b, after)
  {
    if n > 0 {
      var ticks := Ticks(data, s);
      PassTradesOneBar(rules, data, b, s, n - 1);
      FoldTurn(Stepper(rules, data), b, ticks, n - 1);
      var before, after := Fold(Stepper(rules, data), b, ticks[..n - 1]), Fold(Stepper(rules, data), b, ticks[..n]);
      assert ticks[n - 1].symbol == s && ticks[n - 1].index + 1 == n;
      assert after == BarStep(rules, data, before, ticks[n - 1]);
      BarTradesOneBar(rules, data, before, ticks[n - 1]);
    }
  }

  /** With liquidation and no symbol listed twice, every trade is closed exactly one bar after its entry. */
  lemma {:induction false} EveryTradeTakesOneBar(rules: Rules, data: History, symbols: seq<Symbol>, start: real)
    requires rules.closeAtEndOfDay && Distinct(symbols)
    ensures OneBarTrades(RunList(rules, data, symbols, start).trades)
    ensures forall s :: s !in symbols ==> HeldOf(RunList(rules, data, symbols, start), s).quantity == 0
  {
    if symbols != [] {
      var n := |symbols| - 1;
      var b, s := RunList(rules, data, symbols[..n], start), symbols[n];
      EveryTradeTakesOneBar(rules, data, symbols[..n], start);
      FoldTurn(Passer(rules, data), Book(start, map[], [], []), symbols, n);
      assert symbols[..n + 1] == symbols;
      PassTradesOneBar(rules, data, b, s, |Ticks(data, s)|);
      assert Ticks(data, s)[..|Ticks(data, s)|] == Ticks(data, s);
    }
  }

  // ---------------------------------------------------------------- a symbol listed twice

  /** Thirty closes that rise, and then a jump. */
  const JUMP: seq<real> := Rising(30) + [200.0]

  /** The prices of one symbol; no other has any. */
  function JumpOf(s: Symbol): History {
    History(map[s := JUMP], map[])
  }

  const BOUGHT: Holding := Holding(1, 200.0, 200.0, 200.0, 0.0, 30)

  function Plain(period: nat, round: real -> real): Rules
    requires period > 0
  {
    PlainRules(period, round, 0, true)
  }

  lemma JumpTicks(s: Symbol)
    ensures |Ticks(JumpOf(s), s)| == 31
    ensures forall i :: 0 <= i < 31 ==> Ticks(JumpOf(s), s)[i] == TickOf(s, JUMP, i)
  {}

  lemma QuietBar(rules: Rules, s: Symbol, b: Book, i: nat)
    requires i < 30 && rules.minimumCloses == 30 && HeldOf(b, s) == NOTHING
    ensures BarStep(rules, JumpOf(s), b, TickOf(s, JUMP, i)) == b
  {
    assert |LastOf(JUMP[..i], 30)| < 30;
  }

  lemma JumpBuys(period: nat, round: real -> real, s: Symbol, b: Book)
    requires 1 < period < 30 && RoundsToTenths(round)
    requires HeldOf(b, s) == NOTHING && b.cash == 1000.0
    ensures
      var after := BarStep(Plain(period, round), JumpOf(s), b, TickOf(s, JUMP, 30));
      HeldOf(after, s) == BOUGHT && after.trades == b.trades
  {
    var rules, tick := Plain(period, round), TickOf(s, JUMP, 30);
    PlainRulesUseProgramIndicators(period, round, 0, true);
    assert LastOf(JUMP[..30], 30) == Rising(30);
    RisingThenJumpBuys(rules, period, round, 200.0);
    assert SignalAt(rules, tick) == Some(Buy);
    assert UnitCost(200.0, 1, 0.0) == 200.0;
  }

  lemma FirstPassBuys(period: nat, round: real -> real, s: Symbol, b: Book)
    requires 1 < period < 30 && RoundsToTenths(round)
    requires HeldOf(b, s) == NOTHING && b.cash == 1000.0
    ensures
      var after := Pass(Plain(period, round), JumpOf(s), b, s);
      HeldOf(after, s) == BOUGHT && after.trades == b.trades
  {
    var step, ticks := Stepper(Plain(period, round), JumpOf(s)), Ticks(JumpOf(s), s);
    JumpTicks(s);
    assert ticks[..0] == [] && ticks[..31] == ticks;
    for i := 0 to 30
      invariant Fold(step, b, ticks[..i]) == b
    {
      FoldTurn(step, b, ticks, i);
      QuietBar(Plain(period, round), s, b, i);
    }
    FoldTurn(step, b, ticks, 30);
    JumpBuys(period, round, s, b);
  }

  ghost predicate TradesGrow(trades: seq<ListTrade>, b: Book) {
    trades <= b.trades
  }

  /** Trades are only ever added. */
  lemma {:induction false} TradesStay(rules: Rules, data: History, b: Book, ticks: seq<Tick>)
    ensures b.trades <= Fold(Stepper(rules, data), b, ticks).trades
  {
    FoldKeeps(Stepper(rules, data), b, ticks, c => TradesGrow(b.trades, c), _ => true);
  }

  lemma {:induction false} TradesStayInList(rules: Rules, data: History, b: Book, symbols: seq<Symbol>)
    ensures b.trades <= Fold(Passer(rules, data), b, symbols).trades
  {
    forall c: Book, s: Symbol | TradesGrow(b.trades, c) ensures TradesGrow(b.trades, Passer(rules, data)(c, s)) {
      TradesStay(rules, data, c, Ticks(data, s));
    }
    FoldKeeps(Passer(rules, data), b, symbols, c => TradesGrow(b.trades, c), _ => true);
  }

  lemma FoldFromFirst<X>(step: (Book, X) -> Book, b: Book, xs: seq<X>)
    requires xs != []
    ensures Fold(step, b, xs) == Fold(step, step(b, xs[0]), xs[1..])
  {
    FoldSplit(step, b, xs, 1);
    FoldTurn(step, b, xs, 0);
  }

  ghost predicate ExitsBeforeEntry(b: Book) {
    |b.trades| > 0 && b.trades[0].entryDay == 30 && b.trades[0].exitDay == 0
  }

  /** What was bought at the jump is stopped out at the first close. */
  lemma FirstCloseSells(period: nat, round: real -> real, s: Symbol, b: Book)
    requires period > 0 && HeldOf(b, s) == BOUGHT && b.trades == []
    ensures ExitsBeforeEntry(BarStep(Plain(period, round), JumpOf(s), b, TickOf(s, JUMP, 0)))
  {
    var rules, tick := Plain(period, round), TickOf(s, JUMP, 0);
    assert tick.price == 100.0 && Liquidated(rules, b, tick) == b;
    assert StopHit(rules, JumpOf(s), HighRaised(b, tick), tick);
  }

  /** A second pass over the symbol sells on its first bar what was bought on the last one. */
  lemma SecondPassSells(period: nat, round: real -> real, s: Symbol, b: Book)
    requires period > 0 && HeldOf(b, s) == BOUGHT && b.trades == []
    ensures ExitsBeforeEntry(Pass(Plain(period, round), JumpOf(s), b, s))
  {
    var rules, data := Plain(period, round), JumpOf(s);
    var ticks := Ticks(data, s);
    JumpTicks(s);
    FirstCloseSells(period, round, s, b);
    FoldFromFirst(Stepper(rules, data), b, ticks);
    TradesStay(rules, data, BarStep(rules, data, b, ticks[0]), ticks[1..]);
  }

  lemma {:induction false} OthersDoNothing(rules: Rules, s: Symbol, b: Book, symbols: seq<Symbol>)
    requires s !in symbols
    ensures Fold(Passer(rules, JumpOf(s)), b, symbols) == b
  {
    if symbols != [] {
      var n := |symbols| - 1;
      OthersDoNothing(rules, s, b, symbols[..n]);
      assert symbols[n] in symbols;
      assert Ticks(JumpOf(s), symbols[n]) == [];
    }
  }

  /** The next pass over the symbol, at position `i`, after symbols without prices. */
  lemma NextPass(rules: Rules, s: Symbol, b: Book, symbols: seq<Symbol>, i: nat)
    requires i < |symbols| && symbols[i] == s && s !in symbols[..i]
    ensures
      var data := JumpOf(s);
      Fold(Passer(rules, data), b, symbols) == Fold(Passer(rules, data), Pass(rules, data, b, s), symbols[i + 1..])
  {
    var passer := Passer(rules, JumpOf(s));
    FoldSplit(passer, b, symbols, i);
    OthersDoNothing(rules, s, b, symbols[..i]);
    FoldFromFirst(passer, b, symbols[i..]);
    assert symbols[i..][1..] == symbols[i + 1..];
  }

  lemma {:induction false} FirstIndex(symbols: seq<Symbol>, s: Symbol) returns (i: nat)
    requires s in symbols
    ensures i < |symbols| && symbols[i] == s && s !in symbols[..i]
    ensures forall k :: 0 <= k < i ==> symbols[k] != s
  {
    i := 0;
    while symbols[i] != s
      invariant i < |symbols| && s !in symbols[..i] && s in symbols
      invariant forall k :: 0 <= k < i ==> symbols[k] != s
      decreases |symbols| - i
    {
      assert symbols[..i + 1] == symbols[..i] + [symbols[i]];
      assert symbols == symbols[..i + 1] + symbols[i + 1..];
      i := i + 1;
    }
  }

  /** A symbol listed twice can be stopped out on the first bar of its second pass, thirty bars before
      the bar that bought it: thirty closes rise, the next one jumps, and the first lies below the stop. */
  lemma RepeatedSymbolExitsBeforeEntry(period: nat, round: real -> real, symbols: seq<Symbol>, i: nat, j: nat)
    requires 1 < period < 30 && RoundsToTenths(round)
    requires i < j < |symbols| && symbols[i] == symbols[j]
    ensures !OneBarTrades(RunList(Plain(period, round), JumpOf(symbols[i]), symbols, 1000.0).trades)
  {
    var s, rules, data := symbols[i], Plain(period, round), JumpOf(symbols[i]);
    var start := Book(1000.0, map[], [], []);
    var first := FirstIndex(symbols, s);
    NextPass(rules, s, start, symbols, first);
    FirstPassBuys(period, round, s, start);
    var held, rest := Pass(rules, data, start, s), symbols[first + 1..];
    assert rest[j - first - 1] == s;
    var second := FirstIndex(rest, s);
    NextPass(rules, s, held, rest, second);
    SecondPassSells(period, round, s, held);
    TradesStayInList(rules, data, Pass(rules, data, held, s), rest[second + 1..]);
  }

  /** Every trade takes one bar, whatever the prices, under all rules with the program's indicators. */
  ghost predicate AlwaysOneBar(period: nat, round: real -> real, symbols: seq<Symbol>) {
    forall rules: Rules, data: History, start: real ::
      rules.closeAtEndOfDay && UsesProgramIndicators(rules, period, round) ==>
      OneBarTrades(RunList(rules, data, symbols, start).trades)
  }

  /** A list guarantees trades of one bar if and only if it names no symbol twice. */
  lemma OneBarIffDistinct(period: nat, round: real -> real, symbols: seq<Symbol>)
    requires 1 < period < 30 && RoundsToTenths(round)
    ensures AlwaysOneBar(period, round, symbols) <==> Distinct(symbols)
  {
    if Distinct(symbols) {
      forall rules: Rules, data: History, start: real | rules.closeAtEndOfDay
        && UsesProgramIndicators(rules, period, round)
        ensures OneBarTrades(RunList(rules, data, symbols, start).trades)
      {
        EveryTradeTakesOneBar(rules, data, symbols, start);
      }
    } else {
      var i, j :| 0 <= i < j < |symbols| && symbols[i] == symbols[j];
      PlainRulesUseProgramIndicators(period, round, 0, true);
      RepeatedSymbolExitsBeforeEntry(period, round, symbols, i, j);
    }
  }
}
