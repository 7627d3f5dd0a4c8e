/** What a backtest run does in one symbol. The position and the deals of a symbol change only at its own quotes, in
    three turns of a moment: the stop, the sale on a signal, the purchase. */
module BacktestPositions {
  import opened Common
  import opened Backtest
  import opened BacktestLedger
  import opened BacktestRuns

  /** The position in a symbol with the details recorded of it. */
  datatype Position =
    | Flat
    | Position(quantity: int, cost: real, price: real, high: real, fee: real, date: Date, time: Option<Time>)

  /** A recorded signal, a sale with the record of its trade. */
  datatype Deal = Bought(signal: Signal) | Sold(signal: Signal, trade: Trade)

  /** What a run has come to in one symbol. */
  datatype View = View(position: Position, deals: seq<Deal>)

  function PositionOf(a: Account, s: Symbol): Position {
    if Held(a, s) <= 0 then Flat
    else Position(Held(a, s), Get(a.avgCost, s, 0.0), Get(a.entries.prices, s, 0.0), Get(a.entries.highs, s, 0.0),
                  Get(a.entries.fees, s, 0.0), Get(a.entries.dates, s, 0),
                  if s in a.entries.times then Some(a.entries.times[s]) else None)
  }

  /** The signals of a symbol in order; the trade records belong to the sales in theirs. */
  function Deals(signals: seq<Signal>, history: seq<Trade>, s: Symbol): seq<Deal> {
    if signals == [] then []
    else
      var last, earlier := signals[|signals| - 1], signals[..|signals| - 1];
      if last.side == Buy then Deals(earlier, history, s) + (if last.symbol == s then [Bought(last)] else [])
      else if history == [] then []
      else
        Deals(earlier, history[..|history| - 1], s)
        + (if last.symbol == s then [Sold(last, history[|history| - 1])] else [])
  }

  function ViewOf(a: Account, s: Symbol): View {
    View(PositionOf(a, s), Deals(a.log.signals, a.log.history, s))
  }

  lemma PurchaseAddsDeal(signals: seq<Signal>, history: seq<Trade>, b: Signal, s: Symbol)
    requires b.side == Buy
    ensures Deals(signals + [b], history, s) ==
            Deals(signals, history, s) + (if b.symbol == s then [Bought(b)] else [])
  {
    assert (signals + [b])[..|signals|] == signals;
  }

  lemma SaleAddsDeal(signals: seq<Signal>, history: seq<Trade>, x: Signal, trade: Trade, s: Symbol)
    requires x.side == Sell
    ensures Deals(signals + [x], history + [trade], s) ==
            Deals(signals, history, s) + (if x.symbol == s then [Sold(x, trade)] else [])
  {
    assert (signals + [x])[..|signals|] == signals && (history + [trade])[..|history|] == history;
  }

  /** Every sale has its trade record. */
  function SalesIn(signals: seq<Signal>): nat {
    if signals == [] then 0
    else SalesIn(signals[..|signals| - 1]) + (if signals[|signals| - 1].side == Sell then 1 else 0)
  }

  lemma OneMoreSignal(signals: seq<Signal>, x: Signal)
    ensures SalesIn(signals + [x]) == SalesIn(signals) + (if x.side == Sell then 1 else 0)
  {
    assert (signals + [x])[..|signals|] == signals;
  }

  ghost predicate Paired(a: Account) {
    |a.log.history| == SalesIn(a.log.signals)
  }

  lemma PairsAreKept(rules: Rules, m: Market, date: Date)
    ensures Keeps(rules, m, date, Paired, _ => true)
  {
    forall a: Account, tick: Tick, note: Note | Paired(a) ensures Paired(Close(rules, a, date, tick, note)) {
      if Held(a, tick.symbol) > 0 {
        OneMoreSignal(a.log.signals, Close(rules, a, date, tick, note).log.signals[|a.log.signals|]);
      }
    }
    forall a: Account, tick: Tick | Paired(a) ensures Paired(TryBuy(rules, m, a, date, tick)) {
      var b := TryBuy(rules, m, a, date, tick);
      if b != a {
        OneMoreSignal(a.log.signals, b.log.signals[|a.log.signals|]);
      }
    }
    forall a: Account, tick: Tick | Paired(a) ensures Paired(Raise(a, tick)) {}
  }

  /** The signals of some deals. */
  function SignalsOf(deals: seq<Deal>): seq<Signal> {
    seq(|deals|, i requires 0 <= i < |deals| => deals[i].signal)
  }

  /** No signal of a symbol is missing among its deals. */
  lemma {:induction false} DealsListAllSignals(signals: seq<Signal>, history: seq<Trade>, s: Symbol)
    requires |history| == SalesIn(signals)
    ensures SignalsOf(Deals(signals, history, s)) == TraceOf(signals, s)
  {
    if signals != [] {
      var last, earlier := signals[|signals| - 1], signals[..|signals| - 1];
      DealsListAllSignals(earlier, if last.side == Buy then history else history[..|history| - 1], s);
    }
  }

  /** At every moment of every run each sale has its trade record. */
  lemma {:induction false} EverySaleHasItsRecord(rules: Rules, m: Market, start: real, dates: seq<Date>, date: Date,
                                                 t: Time)
    requires t <= END_OF_DAY
    ensures
      var run := RunDates(rules, m, start, dates);
      Paired(run.account) && Paired(DayUntil(rules, m, date, run.account, run.feed, t).account)
  {
    forall d | d in dates + [date] ensures Keeps(rules, m, d, Paired, _ => true) {
      PairsAreKept(rules, m, d);
    }
    RunAndDayKeep(rules, m, start, dates, date, t, Paired, _ => true);
  }

  // ---------------------------------------------------------------- one step

  /** The record and the signal of selling a position. */
  function SoldDeal(rules: Rules, p: Position, date: Date, tick: Tick, note: Note): Deal
    requires p.Position?
  {
    var price := ExecutionPrice(rules, Sell, tick);
    var fee := Fee(rules, price, p.quantity);
    var trade := Trade(tick.symbol, p.price, price, tick.price, DelayedPrice(rules, tick), p.quantity, p.fee, fee,
                       Profit(price, p.cost, p.quantity, fee), p.date, date, p.time, tick.time, p.high);
    Sold(SellSignal(date, tick, trade, note), trade)
  }

  function SellView(rules: Rules, v: View, date: Date, tick: Tick, note: Note): View {
    if v.position.Flat? then v
    else View(Flat, v.deals + [SoldDeal(rules, v.position, date, tick, note)])
  }

  lemma CloseLeavesPosition(rules: Rules, a: Account, date: Date, tick: Tick, note: Note, s: Symbol)
    requires Held(a, tick.symbol) > 0
    ensures PositionOf(Close(rules, a, date, tick, note), s) ==
            if tick.symbol == s then Flat else PositionOf(a, s)
  {}

  lemma CloseAddsDeal(rules: Rules, a: Account, date: Date, tick: Tick, note: Note, s: Symbol)
    requires Held(a, tick.symbol) > 0 && tick.symbol in a.entries.highs
    ensures
      var b, p := Close(rules, a, date, tick, note), PositionOf(a, tick.symbol);
      Deals(b.log.signals, b.log.history, s) ==
        Deals(a.log.signals, a.log.history, s)
        + (if tick.symbol == s then [SoldDeal(rules, p, date, tick, note)] else [])
  {
    var trade := TradeOf(rules, a.entries, Get(a.avgCost, tick.symbol, 0.0), Held(a, tick.symbol), date, tick);
    SaleAddsDeal(a.log.signals, a.log.history, SellSignal(date, tick, trade, note), trade, s);
  }

  lemma CloseShows(rules: Rules, a: Account, date: Date, tick: Tick, note: Note, s: Symbol)
    requires KeysSound(a)
    ensures
      var b := Close(rules, a, date, tick, note);
      && KeysSound(b)
      && ViewOf(b, s) == if tick.symbol == s then SellView(rules, ViewOf(a, s), date, tick, note) else ViewOf(a, s)
  {
    CloseKeepsKeys(rules, a, date, tick, note);
    if Held(a, tick.symbol) > 0 {
      assert tick.symbol in OpenSymbols(a.holdings);
      CloseLeavesPosition(rules, a, date, tick, note, s);
      CloseAddsDeal(rules, a, date, tick, note, s);
    }
  }

  function RaisedView(v: View, tick: Tick): View {
    if v.position.Flat? then v else v.(position := v.position.(high := Max(v.position.high, tick.price)))
  }

  lemma RaiseShows(a: Account, tick: Tick, s: Symbol)
    requires KeysSound(a)
    ensures KeysSound(Raise(a, tick))
    ensures ViewOf(Raise(a, tick), s) == if tick.symbol == s then RaisedView(ViewOf(a, s), tick) else ViewOf(a, s)
  {
    RaiseKeepsKeys(a, tick);
    if Held(a, tick.symbol) > 0 {
      assert tick.symbol in OpenSymbols(a.holdings);
      RaiseMovesHigh(a, tick, s);
    }
  }

  lemma RaiseMovesHigh(a: Account, tick: Tick, s: Symbol)
    requires Held(a, tick.symbol) > 0 && tick.symbol in a.entries.highs
    ensures ViewOf(Raise(a, tick), s) == if tick.symbol == s then RaisedView(ViewOf(a, s), tick) else ViewOf(a, s)
  {
    assert Raise(a, tick).log == a.log;
  }

  /** A purchase of some quantity. */
  ghost predicate BuysInto(rules: Rules, v: View, after: View, date: Date, tick: Tick, quantity: int) {
    && v.position.Flat? && quantity > 0
    && var price := ExecutionPrice(rules, Buy, tick);
       var fee := Fee(rules, price, quantity);
       after == View(Position(quantity, UnitCost(price, quantity, fee), price, price, fee, date, tick.time),
                     v.deals + [Bought(BuySignal(rules, date, tick, quantity, price, fee))])
  }

  /** A purchase is tried on some account that shows the position. */
  ghost predicate TriedOn(rules: Rules, m: Market, a: Account, v: View, after: View, date: Date, tick: Tick) {
    KeysSound(a) && ViewOf(a, tick.symbol) == v && ViewOf(TryBuy(rules, m, a, date, tick), tick.symbol) == after
  }

  ghost predicate Tried(rules: Rules, m: Market, v: View, after: View, date: Date, tick: Tick) {
    exists a :: TriedOn(rules, m, a, v, after, date, tick)
  }

  lemma OpenTakesPosition(rules: Rules, a: Account, date: Date, tick: Tick, quantity: int, s: Symbol)
    requires quantity > 0 && tick.symbol !in a.entries.times
    ensures
      var b, price := Open(rules, a, date, tick, quantity), ExecutionPrice(rules, Buy, tick);
      var fee := Fee(rules, price, quantity);
      PositionOf(b, s) ==
        if tick.symbol == s
        then Position(quantity, UnitCost(price, quantity, fee), price, price, fee, date, tick.time)
        else PositionOf(a, s)
  {}

  lemma OpenAddsDeal(rules: Rules, a: Account, date: Date, tick: Tick, quantity: int, s: Symbol)
    requires quantity > 0
    ensures
      var b, price := Open(rules, a, date, tick, quantity), ExecutionPrice(rules, Buy, tick);
      var signal := BuySignal(rules, date, tick, quantity, price, Fee(rules, price, quantity));
      Deals(b.log.signals, b.log.history, s) ==
        Deals(a.log.signals, a.log.history, s) + if tick.symbol == s then [Bought(signal)] else []
  {
    var price := ExecutionPrice(rules, Buy, tick);
    var signal := BuySignal(rules, date, tick, quantity, price, Fee(rules, price, quantity));
    PurchaseAddsDeal(a.log.signals, a.log.history, signal, s);
  }

  lemma OpenShows(rules: Rules, a: Account, date: Date, tick: Tick, quantity: int, s: Symbol)
    requires KeysSound(a) && quantity > 0 && Held(a, tick.symbol) == 0
    ensures
      var b := Open(rules, a, date, tick, quantity);
      if tick.symbol == s then BuysInto(rules, ViewOf(a, s), ViewOf(b, s), date, tick, quantity)
      else ViewOf(b, s) == ViewOf(a, s)
  {
    assert tick.symbol !in OpenSymbols(a.holdings);
    OpenTakesPosition(rules, a, date, tick, quantity, s);
    OpenAddsDeal(rules, a, date, tick, quantity, s);
  }

  lemma TryBuyShows(rules: Rules, m: Market, a: Account, date: Date, tick: Tick, s: Symbol)
    requires KeysSound(a)
    ensures
      var b := TryBuy(rules, m, a, date, tick);
      && KeysSound(b)
      && if tick.symbol == s
         then ViewOf(b, s) == ViewOf(a, s)
              || exists quantity :: BuysInto(rules, ViewOf(a, s), ViewOf(b, s), date, tick, quantity)
         else ViewOf(b, s) == ViewOf(a, s)
  {
    TryBuyKeepsKeys(rules, m, a, date, tick);
    TryBuyOpensOrNothing(rules, m, a, date, tick);
    if TryBuy(rules, m, a, date, tick) != a {
      OpenShows(rules, a, date, tick, OrderQuantity(rules, m, a, date, tick), s);
    }
  }

  lemma TriedMayBuy(rules: Rules, m: Market, v: View, after: View, date: Date, tick: Tick)
    requires Tried(rules, m, v, after, date, tick)
    ensures after == v || exists quantity :: BuysInto(rules, v, after, date, tick, quantity)
  {
    var a :| TriedOn(rules, m, a, v, after, date, tick);
    TryBuyShows(rules, m, a, date, tick, tick.symbol);
  }

  // ---------------------------------------------------------------- loops that come to a symbol once

  function AsSeq<X>(x: Option<X>): seq<X> {
    if x.Some? then [x.value] else []
  }

  /** A loop with at most one turn that matters: before it `P` is kept, the turn leads to `R`, and `R` is kept after. */
  lemma {:induction false} FoldOnce<A(!new), X(!new)>(step: (A, X) -> A, a: A, xs: seq<X>, mine: X -> bool,
                                                      only: Option<X>, P: A -> bool, R: A -> bool)
    requires Filter(xs, mine) == AsSeq(only) && P(a)
    requires forall b, x :: P(b) && !mine(x) ==> P(step(b, x))
    requires forall b, x :: R(b) && !mine(x) ==> R(step(b, x))
    requires only.Some? ==> forall b :: P(b) ==> R(step(b, only.value))
    ensures if only.Some? then R(Fold(step, a, xs)) else P(Fold(step, a, xs))
  {
    if xs != [] {
      var rest, last := xs[..|xs| - 1], xs[|xs| - 1];
      if mine(last) {
        assert Filter(xs, mine)[|Filter(rest, mine)|] == last;
        assert Filter(rest, mine) == AsSeq<X>(None);
        FoldOnce(step, a, rest, mine, None, P, R);
      } else {
        assert Filter(xs, mine) == Filter(rest, mine);
        FoldOnce(step, a, rest, mine, only, P, R);
      }
    }
  }

  ghost function TickOf(s: Symbol): Tick -> bool {
    (tick: Tick) => tick.symbol == s
  }

  ghost function IntentOf(s: Symbol): Intent -> bool {
    (intent: Intent) => intent.tick.symbol == s
  }

  lemma OneMoreTick(m: Market, date: Date, t: Time, rest: seq<Symbol>, last: Symbol, s: Symbol)
    ensures Filter(TicksAt(m, date, t, rest + [last]), TickOf(s)) ==
            Filter(TicksAt(m, date, t, rest), TickOf(s)) + if s == last then AsSeq(TickAt(m, date, t, s)) else []
  {
    var tick, ticks := TickAt(m, date, t, last), TicksAt(m, date, t, rest);
    assert (rest + [last])[..|rest|] == rest;
    QuoteIff(m, date, t, last);
    if tick.Some? {
      FilterTurn(ticks, tick.value, TickOf(s));
    } else {
      assert TicksAt(m, date, t, rest + [last]) == ticks;
    }
  }

  ghost predicate OneOf(symbols: seq<Symbol>, ticks: seq<Tick>, s: Symbol, tick: Option<Tick>) {
    Filter(ticks, TickOf(s)) == if s in symbols then AsSeq(tick) else []
  }

  lemma OneOfMore(rest: seq<Symbol>, last: Symbol, before: seq<Tick>, after: seq<Tick>, s: Symbol, tick: Option<Tick>)
    requires last !in rest && OneOf(rest, before, s, tick)
    requires Filter(after, TickOf(s)) == Filter(before, TickOf(s)) + if s == last then AsSeq(tick) else []
    ensures OneOf(rest + [last], after, s, tick)
  {
    assert s in rest + [last] <==> s in rest || s == last;
  }

  lemma LastIsNew(symbols: seq<Symbol>)
    requires Ascends(symbols) && symbols != []
    ensures
      var rest, last := symbols[..|symbols| - 1], symbols[|symbols| - 1];
      symbols == rest + [last] && Ascends(rest) && last !in rest
  {}

  /** A symbol of the universe is quoted at most once at a moment. */
  lemma {:induction false} OneTick(m: Market, date: Date, t: Time, symbols: seq<Symbol>, s: Symbol)
    requires Ascends(symbols)
    ensures OneOf(symbols, TicksAt(m, date, t, symbols), s, TickAt(m, date, t, s))
  {
    if symbols != [] {
      var rest, last := symbols[..|symbols| - 1], symbols[|symbols| - 1];
      LastIsNew(symbols);
      OneTick(m, date, t, rest, s);
      OneMoreTick(m, date, t, rest, last, s);
      OneOfMore(rest, last, TicksAt(m, date, t, rest), TicksAt(m, date, t, rest + [last]), s, TickAt(m, date, t, s));
    }
  }

  // ---------------------------------------------------------------- one moment

  /** The account after the high of a quote's symbol has been raised and a stop carried out. */
  function StopView(rules: Rules, v: View, date: Date, tick: Tick, note: Option<Note>): View {
    var raised := RaisedView(v, tick);
    if note.Some? then SellView(rules, raised, date, tick, note.value) else raised
  }

  /** The stop that a position hits at a quote. */
  function NoteFor(rules: Rules, m: Market, p: Position, date: Date, tick: Tick): Option<Note> {
    if p.Flat? then None
    else
      var bars := BarsBefore(m, tick.symbol, date);
      if rules.atrStop && bars != [] && rules.assess(bars).Some?
         && AtOrBelowLine(ExitTrail(rules, p.price, rules.assess(bars).value), p.high, tick.price)
      then Some(AtrStopNote)
      else if rules.stopLoss > 0.0 && tick.price <= p.cost * (1.0 - rules.stopLoss) then Some(StopLossNote)
      else None
  }

  lemma NoteShows(rules: Rules, m: Market, a: Account, date: Date, tick: Tick)
    ensures StopNote(rules, m, a, date, tick) == NoteFor(rules, m, PositionOf(a, tick.symbol), date, tick)
  {}

  function SignalAt(rules: Rules, m: Market, seen: map<Symbol, seq<real>>, date: Date, tick: Tick,
                    note: Option<Note>): Option<Intent> {
    if tick.symbol in Get(m.selected, date, {}) && note.None? then
      var signal := Evaluate(rules, m, seen, date, tick);
      if signal.Some? then Some(Intent(tick, signal.value)) else None
    else None
  }

  /** Before the symbol's quote has come up. */
  ghost predicate Untouched(s: Symbol, v: View, st: Stage) {
    KeysSound(st.account) && ViewOf(st.account, s) == v && s !in st.stopped && Filter(st.intents, IntentOf(s)) == []
  }

  /** After it. */
  ghost predicate Touched(s: Symbol, v: View, intent: Option<Intent>, st: Stage) {
    KeysSound(st.account) && ViewOf(st.account, s) == v && Filter(st.intents, IntentOf(s)) == AsSeq(intent)
  }

  lemma StoppedShows(rules: Rules, m: Market, st: Stage, date: Date, tick: Tick, s: Symbol)
    requires KeysSound(st.account)
    ensures
      var after, v := Stopped(rules, m, st, date, tick), ViewOf(st.account, s);
      var note := NoteFor(rules, m, RaisedView(v, tick).position, date, tick);
      && KeysSound(after.account) && after.intents == st.intents
      && (tick.symbol != s ==> ViewOf(after.account, s) == v && (s in after.stopped <==> s in st.stopped))
      && (tick.symbol == s ==>
            && ViewOf(after.account, s) == StopView(rules, v, date, tick, note)
            && (s in after.stopped <==> s in st.stopped || note.Some?))
  {
    var a := Raise(st.account, tick);
    RaiseShows(st.account, tick, s);
    NoteShows(rules, m, a, date, tick);
    var note := StopNote(rules, m, a, date, tick);
    if note.Some? {
      CloseShows(rules, a, date, tick, note.value, s);
    }
  }

  lemma ObserveOther(rules: Rules, m: Market, seen: map<Symbol, seq<real>>, date: Date, st: Stage, tick: Tick,
                     s: Symbol)
    requires KeysSound(st.account) && tick.symbol != s
    ensures
      var after := Observe(rules, m, seen, date, st, tick);
      && KeysSound(after.account) && ViewOf(after.account, s) == ViewOf(st.account, s)
      && (s in after.stopped <==> s in st.stopped)
      && Filter(after.intents, IntentOf(s)) == Filter(st.intents, IntentOf(s))
  {
    StoppedShows(rules, m, st, date, tick, s);
    var signal := Evaluate(rules, m, seen, date, tick);
    if signal.Some? {
      FilterTurn(st.intents, Intent(tick, signal.value), IntentOf(s));
    }
  }

  /** Of a symbol not yet stopped out, a quote adds the signal that its stop leaves. */
  lemma ObserveAddsSignal(rules: Rules, m: Market, seen: map<Symbol, seq<real>>, date: Date, st: Stage, tick: Tick)
    requires tick.symbol !in st.stopped
    ensures
      var note := StopNote(rules, m, Raise(st.account, tick), date, tick);
      var after := Observe(rules, m, seen, date, st, tick);
      && after.account == Stopped(rules, m, st, date, tick).account
      && after.intents == st.intents + AsSeq(SignalAt(rules, m, seen, date, tick, note))
  {}

  lemma FirstSignal(intents: seq<Intent>, s: Symbol, intent: Option<Intent>)
    requires Filter(intents, IntentOf(s)) == [] && (intent.Some? ==> intent.value.tick.symbol == s)
    ensures Filter(intents + AsSeq(intent), IntentOf(s)) == AsSeq(intent)
  {
    if intent.Some? {
      FilterTurn(intents, intent.value, IntentOf(s));
    } else {
      assert intents + AsSeq(intent) == intents;
    }
  }

  lemma ObserveOwn(rules: Rules, m: Market, seen: map<Symbol, seq<real>>, date: Date, st: Stage, tick: Tick, v: View)
    requires Untouched(tick.symbol, v, st)
    ensures
      var note := NoteFor(rules, m, RaisedView(v, tick).position, date, tick);
      Touched(tick.symbol, StopView(rules, v, date, tick, note), SignalAt(rules, m, seen, date, tick, note),
              Observe(rules, m, seen, date, st, tick))
  {
    var note := NoteFor(rules, m, RaisedView(v, tick).position, date, tick);
    StoppedShows(rules, m, st, date, tick, tick.symbol);
    RaiseShows(st.account, tick, tick.symbol);
    NoteShows(rules, m, Raise(st.account, tick), date, tick);
    ObserveAddsSignal(rules, m, seen, date, st, tick);
    FirstSignal(st.intents, tick.symbol, SignalAt(rules, m, seen, date, tick, note));
  }

  lemma OtherQuoteKeeps(rules: Rules, m: Market, seen: map<Symbol, seq<real>>, date: Date, st: Stage, tick: Tick,
                        s: Symbol, v: View, intent: Option<Intent>)
    requires tick.symbol != s
    ensures Untouched(s, v, st) ==> Untouched(s, v, Observe(rules, m, seen, date, st, tick))
    ensures Touched(s, v, intent, st) ==> Touched(s, v, intent, Observe(rules, m, seen, date, st, tick))
  {
    if KeysSound(st.account) {
      ObserveOther(rules, m, seen, date, st, tick, s);
    }
  }

  lemma OtherQuotesKeep(rules: Rules, m: Market, seen: map<Symbol, seq<real>>, date: Date, s: Symbol, v: View,
                        after: View, intent: Option<Intent>)
    ensures
      var observe := Observer(rules, m, seen, date);
      forall st: Stage, x: Tick :: x.symbol != s ==>
        && (Untouched(s, v, st) ==> Untouched(s, v, observe(st, x)))
        && (Touched(s, after, intent, st) ==> Touched(s, after, intent, observe(st, x)))
  {
    var observe := Observer(rules, m, seen, date);
    forall st: Stage, x: Tick | x.symbol != s
      ensures Untouched(s, v, st) ==> Untouched(s, v, observe(st, x))
      ensures Touched(s, after, intent, st) ==> Touched(s, after, intent, observe(st, x))
    {
      OtherQuoteKeeps(rules, m, seen, date, st, x, s, v, intent);
      OtherQuoteKeeps(rules, m, seen, date, st, x, s, after, intent);
    }
  }

  lemma {:induction false} UnquotedShows(rules: Rules, m: Market, seen: map<Symbol, seq<real>>, date: Date, a: Account,
                                         ticks: seq<Tick>, s: Symbol)
    requires Filter(ticks, TickOf(s)) == [] && KeysSound(a)
    ensures Touched(s, ViewOf(a, s), None, Fold(Observer(rules, m, seen, date), Stage(a, {}, []), ticks))
  {
    var observe, v := Observer(rules, m, seen, date), ViewOf(a, s);
    var P := (st: Stage) => Untouched(s, v, st);
    forall st: Stage, tick: Tick | P(st) && !TickOf(s)(tick) ensures P(observe(st, tick)) {
      OtherQuoteKeeps(rules, m, seen, date, st, tick, s, v, None);
    }
    FoldOnce(observe, Stage(a, {}, []), ticks, TickOf(s), None, P, P);
  }

  lemma {:induction false} QuotedShows(rules: Rules, m: Market, seen: map<Symbol, seq<real>>, date: Date, a: Account,
                                       ticks: seq<Tick>, tick: Tick, after: View, intent: Option<Intent>)
    requires Filter(ticks, TickOf(tick.symbol)) == [tick] && KeysSound(a)
    requires
      var v := ViewOf(a, tick.symbol);
      var note := NoteFor(rules, m, RaisedView(v, tick).position, date, tick);
      after == StopView(rules, v, date, tick, note) && intent == SignalAt(rules, m, seen, date, tick, note)
    ensures Touched(tick.symbol, after, intent, Fold(Observer(rules, m, seen, date), Stage(a, {}, []), ticks))
  {
    var observe, s, v := Observer(rules, m, seen, date), tick.symbol, ViewOf(a, tick.symbol);
    var P, R := (st: Stage) => Untouched(s, v, st), (st: Stage) => Touched(s, after, intent, st);
    OtherQuotesKeep(rules, m, seen, date, s, v, after, intent);
    forall st: Stage | P(st) ensures R(observe(st, tick)) {
      ObserveOwn(rules, m, seen, date, st, tick, v);
    }
    FoldOnce(observe, Stage(a, {}, []), ticks, TickOf(s), Some(tick), P, R);
  }

  /** The stops and signals of a moment, seen from one symbol. */
  lemma {:induction false} StageShows(rules: Rules, m: Market, seen: map<Symbol, seq<real>>, date: Date, t: Time,
                                      a: Account, s: Symbol)
    requires Ascends(m.universe) && s in m.universe && KeysSound(a)
    ensures
      var st := Fold(Observer(rules, m, seen, date), Stage(a, {}, []), TicksAt(m, date, t, m.universe));
      var v := ViewOf(a, s);
      match TickAt(m, date, t, s)
      case None => Touched(s, v, None, st)
      case Some(tick) =>
        var note := NoteFor(rules, m, RaisedView(v, tick).position, date, tick);
        Touched(s, StopView(rules, v, date, tick, note), SignalAt(rules, m, seen, date, tick, note), st)
  {
    var ticks, v, only := TicksAt(m, date, t, m.universe), ViewOf(a, s), TickAt(m, date, t, s);
    OneTick(m, date, t, m.universe, s);
    if only.None? {
      UnquotedShows(rules, m, seen, date, a, ticks, s);
    } else {
      var tick := only.value;
      var note := NoteFor(rules, m, RaisedView(v, tick).position, date, tick);
      QuotedShows(rules, m, seen, date, a, ticks, tick, StopView(rules, v, date, tick, note),
                  SignalAt(rules, m, seen, date, tick, note));
    }
  }

  function SignalView(rules: Rules, v: View, date: Date, intent: Option<Intent>): View {
    if intent.Some? && intent.value.side == Sell then SellView(rules, v, date, intent.value.tick, NoNote) else v
  }

  ghost predicate Shows(s: Symbol, v: View, a: Account) {
    KeysSound(a) && ViewOf(a, s) == v
  }

  lemma OtherSaleKeeps(rules: Rules, date: Date, a: Account, intent: Intent, s: Symbol)
    requires intent.tick.symbol != s
    ensures KeysSound(a) ==> Shows(s, ViewOf(a, s), SellOn(rules, a, date, intent))
  {
    if KeysSound(a) {
      CloseShows(rules, a, date, intent.tick, NoNote, s);
    }
  }

  lemma OtherPurchaseKeeps(rules: Rules, m: Market, date: Date, a: Account, intent: Intent, s: Symbol)
    requires intent.tick.symbol != s
    ensures KeysSound(a) ==> Shows(s, ViewOf(a, s), BuyOn(rules, m, a, date, intent))
  {
    if KeysSound(a) {
      TryBuyShows(rules, m, a, date, intent.tick, s);
    }
  }

  lemma {:induction false} SalesShow(rules: Rules, date: Date, a: Account, intents: seq<Intent>, s: Symbol,
                                     intent: Option<Intent>)
    requires KeysSound(a) && Filter(intents, IntentOf(s)) == AsSeq(intent)
    requires intent.Some? ==> intent.value.tick.symbol == s
    ensures Shows(s, SignalView(rules, ViewOf(a, s), date, intent), Fold(Seller(rules, date), a, intents))
  {
    var sell, v := Seller(rules, date), ViewOf(a, s);
    var after := SignalView(rules, v, date, intent);
    var P, R := (b: Account) => Shows(s, v, b), (b: Account) => Shows(s, after, b);
    forall b: Account, x: Intent | !IntentOf(s)(x)
      ensures P(b) ==> P(sell(b, x))
      ensures R(b) ==> R(sell(b, x))
    {
      OtherSaleKeeps(rules, date, b, x, s);
    }
    if intent.Some? {
      forall b: Account | P(b) ensures R(sell(b, intent.value)) {
        CloseShows(rules, b, date, intent.value.tick, NoNote, s);
      }
    }
    FoldOnce(sell, a, intents, IntentOf(s), intent, P, R);
  }

  /** After the purchases: the symbol's own one has been tried. */
  ghost predicate Served(rules: Rules, m: Market, s: Symbol, v: View, date: Date, intent: Option<Intent>, a: Account) {
    && KeysSound(a)
    && if intent.Some? && intent.value.side == Buy then Tried(rules, m, v, ViewOf(a, s), date, intent.value.tick)
       else ViewOf(a, s) == v
  }

  lemma {:induction false} PurchasesShow(rules: Rules, m: Market, date: Date, a: Account, intents: seq<Intent>,
                                         s: Symbol, intent: Option<Intent>)
    requires KeysSound(a) && Filter(intents, IntentOf(s)) == AsSeq(intent)
    requires intent.Some? ==> intent.value.tick.symbol == s
    ensures Served(rules, m, s, ViewOf(a, s), date, intent, Fold(Buyer(rules, m, date), a, intents))
  {
    var buy, v := Buyer(rules, m, date), ViewOf(a, s);
    var P, R := (b: Account) => Shows(s, v, b), (b: Account) => Served(rules, m, s, v, date, intent, b);
    forall b: Account, x: Intent | !IntentOf(s)(x)
      ensures P(b) ==> P(buy(b, x))
      ensures R(b) ==> R(buy(b, x))
    {
      OtherPurchaseKeeps(rules, m, date, b, x, s);
    }
    if intent.Some? {
      forall b: Account | P(b) ensures R(buy(b, intent.value)) {
        TryBuyShows(rules, m, b, date, intent.value.tick, s);
        if intent.value.side == Buy {
          assert TriedOn(rules, m, b, v, ViewOf(buy(b, intent.value), s), date, intent.value.tick);
        }
      }
    }
    FoldOnce(buy, a, intents, IntentOf(s), intent, P, R);
  }

  /** What a moment makes of one symbol that is quoted at it. */
  ghost predicate Turns(rules: Rules, m: Market, seen: map<Symbol, seq<real>>, date: Date, tick: Tick, v: View,
                        after: View) {
    var note := NoteFor(rules, m, RaisedView(v, tick).position, date, tick);
    var intent := SignalAt(rules, m, seen, date, tick, note);
    var sold := SignalView(rules, StopView(rules, v, date, tick, note), date, intent);
    if intent.Some? && intent.value.side == Buy then Tried(rules, m, sold, after, date, tick) else after == sold
  }

  /** A moment changes a symbol only at its own quote: stop, sale on a signal, purchase. */
  lemma MomentShows(rules: Rules, m: Market, seen: map<Symbol, seq<real>>, date: Date, t: Time, a: Account, s: Symbol)
    requires Ascends(m.universe) && s in m.universe && KeysSound(a)
    ensures
      var b := TradeMoment(rules, m, seen, date, a, TicksAt(m, date, t, m.universe));
      && KeysSound(b)
      && match TickAt(m, date, t, s)
         case None => ViewOf(b, s) == ViewOf(a, s)
         case Some(tick) => Turns(rules, m, seen, date, tick, ViewOf(a, s), ViewOf(b, s))
  {
    StageShows(rules, m, seen, date, t, a, s);
    var st := Fold(Observer(rules, m, seen, date), Stage(a, {}, []), TicksAt(m, date, t, m.universe));
    var intent: Option<Intent> := None;
    var tick := TickAt(m, date, t, s);
    if tick.Some? {
      intent := SignalAt(rules, m, seen, date, tick.value,
                         NoteFor(rules, m, RaisedView(ViewOf(a, s), tick.value).position, date, tick.value));
    }
    SalesShow(rules, date, st.account, st.intents, s, intent);
    PurchasesShow(rules, m, date, Fold(Seller(rules, date), st.account, st.intents), st.intents, s, intent);
  }

  // ---------------------------------------------------------------- the end of a day

  ghost predicate ClosesWith(s: Symbol, closing: map<Symbol, Tick>, tick: Option<Tick>) {
    if tick.Some? then s in closing && closing[s] == tick.value else s !in closing
  }

  lemma {:induction false} ClosingShows(m: Market, date: Date, t: Time, closing: map<Symbol, Tick>, s: Symbol,
                                        before: Option<Tick>)
    requires Ascends(m.universe) && s in m.universe && ClosesWith(s, closing, before)
    ensures
      var tick := TickAt(m, date, t, s);
      ClosesWith(s, Fold(Closer(), closing, TicksAt(m, date, t, m.universe)), if tick.Some? then tick else before)
  {
    var tick := TickAt(m, date, t, s);
    OneTick(m, date, t, m.universe, s);
    QuoteIff(m, date, t, s);
    ClosesOnce(closing, TicksAt(m, date, t, m.universe), s, before, tick);
  }

  lemma {:induction false} ClosesOnce(closing: map<Symbol, Tick>, ticks: seq<Tick>, s: Symbol, before: Option<Tick>,
                                      tick: Option<Tick>)
    requires ClosesWith(s, closing, before) && Filter(ticks, TickOf(s)) == AsSeq(tick)
    requires tick.Some? ==> tick.value.symbol == s
    ensures ClosesWith(s, Fold(Closer(), closing, ticks), if tick.Some? then tick else before)
  {
    var P, R := (c: map<Symbol, Tick>) => ClosesWith(s, c, before), (c: map<Symbol, Tick>) => ClosesWith(s, c, tick);
    forall c: map<Symbol, Tick>, x: Tick | !TickOf(s)(x)
      ensures P(c) ==> P(Closer()(c, x))
      ensures R(c) ==> R(Closer()(c, x))
    {
      OtherQuoteCloses(s, c, before, x);
      OtherQuoteCloses(s, c, tick, x);
    }
    FoldOnce(Closer(), closing, ticks, TickOf(s), tick, P, R);
  }

  lemma OtherQuoteCloses(s: Symbol, closing: map<Symbol, Tick>, tick: Option<Tick>, x: Tick)
    requires x.symbol != s
    ensures ClosesWith(s, closing, tick) ==> ClosesWith(s, closing[x.symbol := x], tick)
  {}

  lemma {:induction false} OneKey(order: seq<Symbol>, s: Symbol)
    requires Distinct(order)
    ensures Filter(order, x => x == s) == if s in order then [s] else []
  {
    if order != [] {
      var rest, last := order[..|order| - 1], order[|order| - 1];
      OneKey(rest, s);
      assert s in order <==> s in rest || s == last;
    }
  }

  function LiquidView(rules: Rules, v: View, date: Date, tick: Option<Tick>): View {
    if rules.closeAtEndOfDay && tick.Some? then SellView(rules, v, date, tick.value, EndOfDayNote) else v
  }

  lemma OtherLiquidationKeeps(rules: Rules, date: Date, closing: map<Symbol, Tick>, a: Account, x: Symbol, s: Symbol)
    requires x != s && (x in closing ==> closing[x].symbol == x)
    ensures KeysSound(a) ==> Shows(s, ViewOf(a, s), CloseOn(rules, a, date, closing, x))
  {
    if KeysSound(a) && x in closing {
      CloseShows(rules, a, date, closing[x], EndOfDayNote, s);
    }
  }

  lemma OwnLiquidationSells(rules: Rules, date: Date, closing: map<Symbol, Tick>, a: Account, s: Symbol,
                            tick: Option<Tick>)
    requires rules.closeAtEndOfDay && ClosesWith(s, closing, tick) && (tick.Some? ==> tick.value.symbol == s)
    ensures KeysSound(a) ==> Shows(s, LiquidView(rules, ViewOf(a, s), date, tick), CloseOn(rules, a, date, closing, s))
  {
    if KeysSound(a) && tick.Some? {
      CloseShows(rules, a, date, tick.value, EndOfDayNote, s);
    }
  }

  lemma {:induction false} EndOfDayShows(rules: Rules, date: Date, day: Day, s: Symbol, tick: Option<Tick>)
    requires KeysSound(day.account) && ClosesWith(s, day.closing, tick)
    requires forall x :: x in day.closing ==> day.closing[x].symbol == x
    ensures Shows(s, LiquidView(rules, ViewOf(day.account, s), date, tick), EndDay(rules, date, day))
  {
    if rules.closeAtEndOfDay {
      var a, liquidate := day.account, Liquidator(rules, date, day.closing);
      var v, key := ViewOf(a, s), if s in a.order then Some(s) else None;
      var after := LiquidView(rules, v, date, tick);
      OneKey(a.order, s);
      var P, R := (b: Account) => Shows(s, v, b), (b: Account) => Shows(s, after, b);
      forall b: Account, x: Symbol | x != s
        ensures P(b) ==> P(liquidate(b, x))
        ensures R(b) ==> R(liquidate(b, x))
      {
        OtherLiquidationKeeps(rules, date, day.closing, b, x, s);
      }
      forall b: Account | P(b) ensures R(liquidate(b, s)) {
        OwnLiquidationSells(rules, date, day.closing, b, s, tick);
      }
      FoldOnce(liquidate, a, a.order, x => x == s, key, P, R);
      if key.None? {
        assert Held(a, s) == 0;
      }
    }
  }
}
