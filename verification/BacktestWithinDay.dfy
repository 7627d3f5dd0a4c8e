/** Within a day, too, a backtest run does not look ahead, unless its orders are executed late. */
module BacktestWithinDay {
  import opened Common
  import opened Backtest
  import opened BacktestLedger
  import opened BacktestLookAhead
  import opened Indicators

  // ---------------------------------------------------------------- the prices seen so far

  /** What the quote of a symbol at one second adds to the prices seen of it. */
  function Quoted(m: Market, date: Date, t: Time, s: Symbol): seq<real> {
    var tick := TickAt(m, date, t, s);
    if tick.Some? then Added(tick.value, s) else []
  }

  /** The minute prices of a symbol before `t`, in order. */
  function MinutePrices(m: Market, date: Date, s: Symbol, t: nat): seq<real> {
    if t == 0 then [] else MinutePrices(m, date, s, t - 1) + Quoted(m, date, t - 1, s)
  }

  /** The minute prices of a symbol on some dates, in order. */
  function DatedMinutePrices(m: Market, dates: seq<Date>, s: Symbol): seq<real> {
    if dates == [] then []
    else DatedMinutePrices(m, dates[..|dates| - 1], s) + MinutePrices(m, dates[|dates| - 1], s, END_OF_DAY)
  }

  lemma {:induction false} MomentAdds(m: Market, date: Date, t: Time, symbols: seq<Symbol>, s: Symbol)
    requires Ascends(symbols)
    ensures AddedBy(TicksAt(m, date, t, symbols), s) == if s in symbols then Quoted(m, date, t, s) else []
  {
    if symbols != [] {
      var rest, last := symbols[..|symbols| - 1], symbols[|symbols| - 1];
      LastIsNew(symbols, s);
      MomentAdds(m, date, t, rest, s);
      OneMoreSymbol(m, date, t, rest, last, s);
    }
  }

  lemma LastIsNew(symbols: seq<Symbol>, s: Symbol)
    requires Ascends(symbols) && symbols != []
    ensures
      var rest, last := symbols[..|symbols| - 1], symbols[|symbols| - 1];
      Ascends(rest) && last !in rest && (s in symbols <==> s in rest || s == last) && symbols == rest + [last]
  {}

  lemma OneMoreSymbol(m: Market, date: Date, t: Time, rest: seq<Symbol>, last: Symbol, s: Symbol)
    ensures AddedBy(TicksAt(m, date, t, rest + [last]), s) ==
            AddedBy(TicksAt(m, date, t, rest), s) + (if s == last then Quoted(m, date, t, s) else [])
  {
    var tick, ticks := TickAt(m, date, t, last), TicksAt(m, date, t, rest);
    assert (rest + [last])[..|rest|] == rest;
    if tick.Some? {
      assert TicksAt(m, date, t, rest + [last]) == ticks + [tick.value];
      AddedTurn(ticks, tick.value, s);
    } else {
      assert TicksAt(m, date, t, rest + [last]) == ticks;
    }
  }

  lemma MomentSees(rules: Rules, m: Market, date: Date, day: Day, t: Time, s: Symbol)
    requires Ascends(m.universe) && s in m.universe
    ensures Get(Moment(rules, m, date, day, TicksAt(m, date, t, m.universe)).feed.seen, s, []) ==
            Get(day.feed.seen, s, []) + Quoted(m, date, t, s)
  {
    RecordsAdd(day.feed, TicksAt(m, date, t, m.universe), s);
    MomentAdds(m, date, t, m.universe, s);
  }

  /** The prices seen of a symbol at a second of a day. */
  function SeenAt(rules: Rules, m: Market, date: Date, a: Account, feed: Feed, t: nat, s: Symbol): seq<real> {
    Get(DayUntil(rules, m, date, a, feed, t).feed.seen, s, [])
  }

  lemma SeenTurn(rules: Rules, m: Market, date: Date, a: Account, feed: Feed, t: nat, s: Symbol)
    requires Ascends(m.universe) && s in m.universe
    ensures SeenAt(rules, m, date, a, feed, 0, s) == Get(feed.seen, s, [])
    ensures SeenAt(rules, m, date, a, feed, t + 1, s) == SeenAt(rules, m, date, a, feed, t, s) + Quoted(m, date, t, s)
  {
    DayTurn(rules, m, date, a, feed, t);
    MomentSees(rules, m, date, DayUntil(rules, m, date, a, feed, t), t, s);
  }

  /** At any second of a day, the prices seen of a symbol are those from before the day and its minute
      prices of earlier seconds, in order: a price is recorded after the trading of its moment. */
  lemma {:induction false} SeenIsEarlierMinutePrices(rules: Rules, m: Market, date: Date, a: Account, feed: Feed,
                                                     t: nat, s: Symbol)
    requires Ascends(m.universe) && s in m.universe
    ensures SeenAt(rules, m, date, a, feed, t, s) == Get(feed.seen, s, []) + MinutePrices(m, date, s, t)
  {
    if t > 0 {
      SeenIsEarlierMinutePrices(rules, m, date, a, feed, t - 1, s);
      SeenTurn(rules, m, date, a, feed, t - 1, s);
      Regroup(Get(feed.seen, s, []), MinutePrices(m, date, s, t - 1), Quoted(m, date, t - 1, s));
    } else {
      SeenTurn(rules, m, date, a, feed, 0, s);
    }
  }

  /** Between dates, they are the minute prices of all dates so far. */
  lemma {:induction false} SeenIsAllMinutePrices(rules: Rules, m: Market, start: real, dates: seq<Date>, s: Symbol)
    requires Ascends(m.universe) && s in m.universe
    ensures Get(RunDates(rules, m, start, dates).feed.seen, s, []) == DatedMinutePrices(m, dates, s)
  {
    if dates != [] {
      var n := |dates| - 1;
      SeenIsAllMinutePrices(rules, m, start, dates[..n], s);
      var run := RunDates(rules, m, start, dates[..n]);
      SeenIsEarlierMinutePrices(rules, m, dates[n], run.account, run.feed, END_OF_DAY, s);
    }
  }

  // ---------------------------------------------------------------- data that agree up to a moment

  /** The dates before `date`. */
  function EarlierDates(dates: seq<Date>, date: Date): seq<Date> {
    if date == 0 then [] else UpTo(dates, date - 1)
  }

  function RunBefore(rules: Rules, m: Market, start: real, date: Date): Run {
    RunDates(rules, m, start, EarlierDates(m.dates, date))
  }

  /** The day of a run at a second: all trading before it is done. */
  function DayAt(rules: Rules, m: Market, start: real, date: Date, t: nat): Day {
    var run := RunBefore(rules, m, start, date);
    DayUntil(rules, m, date, run.account, run.feed, t)
  }

  /** A symbol shows the same price at the same time, or none, whatever its later prices are. */
  ghost predicate SameShown(x: Option<Tick>, y: Option<Tick>) {
    x.Some? == y.Some?
      && (x.Some? ==>
          x.value.symbol == y.value.symbol && x.value.price == y.value.price && x.value.time == y.value.time)
  }

  /** The data agree before the second `t` of a date: on all earlier dates, on the selection and the regime of
      the date, and on the quotes shown so far. */
  ghost predicate AgreeBefore(m: Market, n: Market, date: Date, t: nat) {
    && WellFormed(m) && WellFormed(n)
    && (date > 0 ==> Agree(m, n, date - 1))
    && Get(m.selected, date, {}) == Get(n.selected, date, {})
    && m.regimes.Some? == n.regimes.Some? && RegimeOn(m, date) == RegimeOn(n, date)
    && forall u: Time, s: Symbol :: u < t ==> SameShown(TickAt(m, date, u, s), TickAt(n, date, u, s))
  }

  /** The symbols selected on the date or before. */
  ghost function SelectedSoFar(m: Market, date: Date): set<Symbol> {
    Get(m.selected, date, {}) + if date == 0 then {} else SelectedUntil(m, date - 1)
  }

  lemma SelectedAreKnown(m: Market, n: Market, date: Date, t: nat)
    requires AgreeBefore(m, n, date, t)
    ensures Known(SelectedSoFar(m, date), m, n)
  {
    forall s | s in SelectedSoFar(m, date) ensures s in m.universe && s in n.universe {
      if s in Get(m.selected, date, {}) {
        assert date in m.selected && s in m.selected[date] && date in n.selected && s in n.selected[date];
      } else {
        SelectedUntilIsKnown(m, n, date - 1);
      }
    }
  }

  lemma AgreementMakesDayBegin(m: Market, n: Market, date: Date, t: nat)
    requires AgreeBefore(m, n, date, t)
    ensures SameDay(m, n, date)
  {
    forall s ensures BarsBefore(m, s, date) == BarsBefore(n, s, date)
      && ClosesBefore(m, s, date) == ClosesBefore(n, s, date) {
      if date > 0 {
        IndicatorsUseEarlierDates(m, n, s, date);
      }
    }
  }

  lemma FreshRunsAgree(start: real, r: set<Symbol>)
    ensures RunsAgree(Run(Opened(start), Feed(map[], map[])), Run(Opened(start), Feed(map[], map[])), r)
  {
    assert OpenSymbols(map[]) == {};
  }

  lemma RunBeforeNext(rules: Rules, m: Market, start: real, d: Date, date: Date)
    requires date == d + 1
    ensures RunBefore(rules, m, start, date) == RunDates(rules, m, start, UpTo(m.dates, d))
  {}

  ghost predicate BeginAlike(rules: Rules, m: Market, n: Market, start: real, date: Date, r: set<Symbol>) {
    RunsAgree(RunBefore(rules, m, start, date), RunBefore(rules, n, start, date), r)
  }

  lemma FirstDateBeginsAlike(rules: Rules, m: Market, n: Market, start: real, r: set<Symbol>)
    ensures BeginAlike(rules, m, n, start, 0, r)
  {
    FreshRunsAgree(start, r);
  }

  lemma NextDateBeginsAlike(rules: Rules, m: Market, n: Market, start: real, d: Date, date: Date, r: set<Symbol>)
    requires WellFormed(m) && WellFormed(n) && Agree(m, n, d) && Known(r, m, n) && SelectedUntil(m, d) <= r
    requires date == d + 1
    ensures BeginAlike(rules, m, n, start, date, r)
  {
    var dates := EarlierRunsAgree(rules, m, n, start, d, r);
    RunBeforeNext(rules, m, start, d, date);
    RunBeforeNext(rules, n, start, d, date);
  }

  /** Before the date the two runs have gone alike. */
  lemma RunsBeginAlike(rules: Rules, m: Market, n: Market, start: real, date: Date, t: nat, r: set<Symbol>)
    requires AgreeBefore(m, n, date, t) && Known(r, m, n) && SelectedSoFar(m, date) <= r
    ensures BeginAlike(rules, m, n, start, date, r)
  {
    if date == 0 {
      FirstDateBeginsAlike(rules, m, n, start, r);
    } else {
      NextDateBeginsAlike(rules, m, n, start, date - 1, date, r);
    }
  }

  // ---------------------------------------------------------------- what a moment can know

  lemma {:induction false} MinutePricesAgree(m: Market, n: Market, date: Date, s: Symbol, t: nat)
    requires forall u: Time :: u < t ==> SameShown(TickAt(m, date, u, s), TickAt(n, date, u, s))
    ensures MinutePrices(m, date, s, t) == MinutePrices(n, date, s, t)
  {
    if t > 0 {
      MinutePricesAgree(m, n, date, s, t - 1);
      assert SameShown(TickAt(m, date, t - 1, s), TickAt(n, date, t - 1, s));
    }
  }

  /** The prices seen of a symbol depend only on quotes shown before, under all rules. */
  lemma SeenUsesEarlierQuotes(rules: Rules, m: Market, n: Market, start: real, date: Date, t: nat, s: Symbol)
    requires AgreeBefore(m, n, date, t) && s in m.universe && s in n.universe
    ensures Get(DayAt(rules, m, start, date, t).feed.seen, s, []) ==
      Get(DayAt(rules, n, start, date, t).feed.seen, s, [])
  {
    SelectedAreKnown(m, n, date, t);
    RunsBeginAlike(rules, m, n, start, date, t, SelectedSoFar(m, date) + {s});
    var run, other := RunBefore(rules, m, start, date), RunBefore(rules, n, start, date);
    SeenIsEarlierMinutePrices(rules, m, date, run.account, run.feed, t, s);
    SeenIsEarlierMinutePrices(rules, n, date, other.account, other.feed, t, s);
    MinutePricesAgree(m, n, date, s, t);
  }

  /** So does the signal of a quote, which is the same for every quote of the same price and time. */
  lemma SignalUsesEarlierQuotes(rules: Rules, m: Market, n: Market, start: real, date: Date, t: nat, x: Tick, y: Tick)
    requires AgreeBefore(m, n, date, t) && x.symbol in SelectedSoFar(m, date)
    requires x.symbol == y.symbol && x.price == y.price && x.time == y.time
    ensures Evaluate(rules, m, DayAt(rules, m, start, date, t).feed.seen, date, x) ==
            Evaluate(rules, n, DayAt(rules, n, start, date, t).feed.seen, date, y)
  {
    SelectedAreKnown(m, n, date, t);
    SeenUsesEarlierQuotes(rules, m, n, start, date, t, x.symbol);
    AgreementMakesDayBegin(m, n, date, t);
    SignalsAgree(rules, m, n, DayAt(rules, m, start, date, t).feed.seen, DayAt(rules, n, start, date, t).feed.seen,
                 date, x, y);
  }

  lemma UndelayedPrice(rules: Rules, m: Market, date: Date, t: Time, s: Symbol)
    requires rules.delay == 0 && TickAt(m, date, t, s).Some?
    ensures DelayedPrice(rules, TickAt(m, date, t, s).value) == TickAt(m, date, t, s).value.price
  {}

  lemma ShownIsQuotedAlike(rules: Rules, exact: bool, m: Market, n: Market, date: Date, t: Time)
    requires rules.delay == 0 || (rules.limitOrders && !exact)
    requires forall s :: SameShown(TickAt(m, date, t, s), TickAt(n, date, t, s))
    ensures QuotedAlike(rules, exact, m, n, date, t)
  {
    forall s ensures
      var x, y := TickAt(m, date, t, s), TickAt(n, date, t, s);
      x.Some? == y.Some? && (x.Some? ==> SameQuote(rules, exact, x.value, y.value))
    {
      var x, y := TickAt(m, date, t, s), TickAt(n, date, t, s);
      assert SameShown(x, y);
      if x.Some? && rules.delay == 0 {
        UndelayedPrice(rules, m, date, t, s);
        UndelayedPrice(rules, n, date, t, s);
      }
    }
  }

  lemma DaysGoAlike(rules: Rules, exact: bool, m: Market, n: Market, start: real, date: Date, t: nat)
    requires AgreeBefore(m, n, date, t) && (rules.delay == 0 || (rules.limitOrders && !exact))
    ensures SameAccount(exact, DayAt(rules, m, start, date, t).account, DayAt(rules, n, start, date, t).account)
  {
    SelectedAreKnown(m, n, date, t);
    RunsBeginAlike(rules, m, n, start, date, t, SelectedSoFar(m, date));
    AgreementMakesDayBegin(m, n, date, t);
    forall u: Time | u < t ensures QuotedAlike(rules, exact, m, n, date, u) {
      ShownIsQuotedAlike(rules, exact, m, n, date, u);
    }
    var run, other := RunBefore(rules, m, start, date), RunBefore(rules, n, start, date);
    DaysStayAgreed(rules, exact, m, n, date, run.account, other.account, run.feed, other.feed, t,
                   SelectedSoFar(m, date));
  }

  /** Two markets that agree before a second leave the same account at it when orders are executed at once, and
      the same cash, positions and results when they are limit orders, whatever either shows later. */
  lemma NoLookAheadWithinDay(rules: Rules, m: Market, n: Market, start: real, date: Date, t: nat)
    requires AgreeBefore(m, n, date, t)
    ensures rules.delay == 0 ==> DayAt(rules, m, start, date, t).account == DayAt(rules, n, start, date, t).account
    ensures rules.delay == 0 || rules.limitOrders ==>
      SameAccount(false, DayAt(rules, m, start, date, t).account, DayAt(rules, n, start, date, t).account)
  {
    if rules.delay == 0 {
      DaysGoAlike(rules, true, m, n, start, date, t);
    } else if rules.limitOrders {
      DaysGoAlike(rules, false, m, n, start, date, t);
    }
  }

  // ---------------------------------------------------------------- orders that are executed late

  const OPENING: Time := 32_400

  /** Closes that rise by one on each of the dates before `n`. */
  function DailyRise(n: nat): map<Date, real> {
    if n == 0 then map[] else DailyRise(n - 1)[n - 1 := 100.0 + (n - 1) as real]
  }

  lemma {:induction false} RiseHas(n: nat, d: Date)
    ensures d in DailyRise(n) <==> d < n
    ensures d < n ==> DailyRise(n)[d] == 100.0 + d as real
  {
    if n > 0 {
      RiseHas(n - 1, d);
    }
  }

  /** A symbol whose closes rise until it jumps at the opening of date 30; a minute later it shows `later`. */
  function JumpMarket(later: real): Market {
    Market([30], map[30 := {0}], [0], map[0 := DailyRise(30)], map[],
           map[0 := map[30 := [MinuteBar(OPENING, 200.0), MinuteBar(OPENING + 60, later)]]], None)
  }

  function JumpQuote(later: real): Tick {
    Tick(0, 200.0, Some(OPENING), [200.0, later], 0)
  }

  lemma RisingStep(d: nat)
    requires d > 0
    ensures Rising(d) == Rising(d - 1) + [100.0 + (d - 1) as real]
  {
    var shorter, longer := Rising(d - 1), Rising(d);
    assert forall k :: 0 <= k < d - 1 ==> longer[k] == shorter[k];
  }

  lemma {:induction false} RiseBefore(d: nat)
    requires d <= 30
    ensures Before(DailyRise(30), d) == Rising(d)
  {
    if d > 0 {
      RiseBefore(d - 1);
      RiseHas(30, d - 1);
      RisingStep(d);
    }
  }

  lemma JumpIsQuoted(later: real, u: Time, s: Symbol)
    requires u <= OPENING
    ensures TickAt(JumpMarket(later), 30, u, s) == if s == 0 && u == OPENING then Some(JumpQuote(later)) else None
  {
    var bars := [MinuteBar(OPENING, 200.0), MinuteBar(OPENING + 60, later)];
    assert bars[..1] == [bars[0]] && [bars[0]][..0] == [];
    assert PositionAt([bars[0]], u) == if u == OPENING then Some(0) else None;
    assert PricesOf(bars) == [200.0, later];
  }

  lemma JumpMarketIsWellFormed(later: real)
    ensures WellFormed(JumpMarket(later))
  {
    var m := JumpMarket(later);
    assert 30 in m.selected && 0 in m.selected[30];
  }

  lemma JumpMarketsAgreeEarlier(a: real, b: real)
    ensures Agree(JumpMarket(a), JumpMarket(b), 29)
  {
    var m, n := JumpMarket(a), JumpMarket(b);
    assert m.closes == n.closes && m.bars == n.bars && m.selected == n.selected && m.regimes == n.regimes;
    forall s: Symbol, date: Date | date <= 29
      ensures Get(Get(m.minutes, s, map[]), date, []) == [] == Get(Get(n.minutes, s, map[]), date, []) {}
  }

  /** The two markets differ only in a price that is shown after the opening. */
  lemma JumpMarketsAgree(a: real, b: real)
    ensures AgreeBefore(JumpMarket(a), JumpMarket(b), 30, OPENING + 1)
  {
    var m, n := JumpMarket(a), JumpMarket(b);
    JumpMarketIsWellFormed(a);
    JumpMarketIsWellFormed(b);
    JumpMarketsAgreeEarlier(a, b);
    forall u: Time, s: Symbol | u < OPENING + 1 ensures SameShown(TickAt(m, 30, u, s), TickAt(n, 30, u, s)) {
      JumpIsQuoted(a, u, s);
      JumpIsQuoted(b, u, s);
    }
  }

  lemma NothingHappens(rules: Rules, m: Market, date: Date, day: Day)
    ensures Moment(rules, m, date, day, []) == day
  {}

  lemma {:induction false} QuietUntilOpening(rules: Rules, later: real, t: nat)
    requires t <= OPENING
    ensures DayUntil(rules, JumpMarket(later), 30, Opened(1000.0), Feed(map[], map[]), t) ==
      Day(Opened(1000.0), Feed(map[], map[]), map[])
  {
    if t > 0 {
      var m := JumpMarket(later);
      QuietUntilOpening(rules, later, t - 1);
      DayTurn(rules, m, 30, Opened(1000.0), Feed(map[], map[]), t - 1);
      JumpIsQuoted(later, t - 1, 0);
      assert [0][..0] == [] && TicksAt(m, 30, t - 1, [0]) == [];
      NothingHappens(rules, m, 30, Day(Opened(1000.0), Feed(map[], map[]), map[]));
    }
  }

  lemma JumpSignals(period: nat, round: real -> real, delay: nat, limitOrders: bool, later: real)
    requires 1 < period < 30 && RoundsToTenths(round)
    ensures Evaluate(PlainRules(period, round, delay, limitOrders), JumpMarket(later), map[], 30, JumpQuote(later)) ==
      Some(Buy)
  {
    var rules, m := PlainRules(period, round, delay, limitOrders), JumpMarket(later);
    RiseBefore(30);
    assert LastOf(Rising(30), 30) == Rising(30);
    assert IndicatorPrices(rules, m, map[], 30, JumpQuote(later)) == Rising(30);
    PlainRulesUseProgramIndicators(period, round, delay, limitOrders);
    RisingThenJumpBuys(rules, period, round, 200.0);
  }

  lemma JumpIsTraded(rules: Rules, later: real)
    requires Evaluate(rules, JumpMarket(later), map[], 30, JumpQuote(later)) == Some(Buy)
    ensures TradeMoment(rules, JumpMarket(later), map[], 30, Opened(1000.0), [JumpQuote(later)]) ==
            TryBuy(rules, JumpMarket(later), Opened(1000.0), 30, JumpQuote(later))
  {
    var m, a, x := JumpMarket(later), Opened(1000.0), JumpQuote(later);
    FirstQuoteSignals(rules, m, map[], 30, 1000.0, x);
    OneQuoteBuys(rules, m, map[], 30, a, x);
  }

  lemma FirstQuoteSignals(rules: Rules, m: Market, seen: map<Symbol, seq<real>>, date: Date, cash: real, x: Tick)
    requires x.symbol in Get(m.selected, date, {}) && Evaluate(rules, m, seen, date, x) == Some(Buy)
    ensures Observe(rules, m, seen, date, Stage(Opened(cash), {}, []), x) == Stage(Opened(cash), {}, [Intent(x, Buy)])
  {
    assert Stopped(rules, m, Stage(Opened(cash), {}, []), date, x) == Stage(Opened(cash), {}, []);
  }

  /** A moment with one quote whose only effect is a buying signal. */
  lemma OneQuoteBuys(rules: Rules, m: Market, seen: map<Symbol, seq<real>>, date: Date, a: Account, x: Tick)
    requires Observe(rules, m, seen, date, Stage(a, {}, []), x) == Stage(a, {}, [Intent(x, Buy)])
    ensures TradeMoment(rules, m, seen, date, a, [x]) == TryBuy(rules, m, a, date, x)
  {
    FoldOne(Observer(rules, m, seen, date), Stage(a, {}, []), x);
    FoldOne(Seller(rules, date), a, Intent(x, Buy));
    FoldOne(Buyer(rules, m, date), a, Intent(x, Buy));
  }

  lemma FoldOne<A, X>(step: (A, X) -> A, a: A, x: X)
    ensures Fold(step, a, [x]) == step(a, x)
  {
    assert [x][..0] == [];
  }

  lemma JumpIsBought(period: nat, round: real -> real, delay: nat, limitOrders: bool, later: real)
    requires 1 < period < 30 && RoundsToTenths(round) && later <= 1000.0
    ensures
      var rules := PlainRules(period, round, delay, limitOrders);
      DayAt(rules, JumpMarket(later), 1000.0, 30, OPENING + 1).account ==
        Open(rules, Opened(1000.0), 30, JumpQuote(later), 1)
  {
    var rules, m, a := PlainRules(period, round, delay, limitOrders), JumpMarket(later), Opened(1000.0);
    assert EarlierDates([30], 30) == [] by {
      assert [30][..0] == [];
    }
    assert RunBefore(rules, m, 1000.0, 30) == Run(a, Feed(map[], map[]));
    QuietUntilOpening(rules, later, OPENING);
    DayTurn(rules, m, 30, a, Feed(map[], map[]), OPENING);
    JumpIsQuoted(later, OPENING, 0);
    assert [0][..0] == [] && TicksAt(m, 30, OPENING, [0]) == [JumpQuote(later)];
    JumpSignals(period, round, delay, limitOrders, later);
    JumpIsTraded(rules, later);
    JumpPassesEveryGate(rules, later);
  }

  lemma JumpPassesEveryGate(rules: Rules, later: real)
    requires rules.targetPositions.None? && rules.quantityPerTrade == 1 && !rules.sizing
    requires rules.feeRate == 0.0 && rules.slippageBps == 0.0 && later <= 1000.0
    ensures TryBuy(rules, JumpMarket(later), Opened(1000.0), 30, JumpQuote(later)) ==
      Open(rules, Opened(1000.0), 30, JumpQuote(later), 1)
  {
    var x := JumpQuote(later);
    assert OrderQuantity(rules, JumpMarket(later), Opened(1000.0), 30, x) == 1;
    assert ExecutionPrice(rules, Buy, x) <= 1000.0;
  }

  /** A late order is executed, or at least recorded, at the later price. */
  lemma LateOrdersLookAhead(period: nat, round: real -> real, delay: nat, limitOrders: bool)
    requires 1 < period < 30 && RoundsToTenths(round) && delay > 0
    ensures
      var rules := PlainRules(period, round, delay, limitOrders);
      var a := DayAt(rules, JumpMarket(300.0), 1000.0, 30, OPENING + 1).account;
      var b := DayAt(rules, JumpMarket(400.0), 1000.0, 30, OPENING + 1).account;
      a.log.signals != b.log.signals && (!limitOrders ==> a.cash == 700.0 && b.cash == 600.0)
  {
    JumpIsBought(period, round, delay, limitOrders, 300.0);
    JumpIsBought(period, round, delay, limitOrders, 400.0);
    LatePurchase(PlainRules(period, round, delay, limitOrders), 300.0);
    LatePurchase(PlainRules(period, round, delay, limitOrders), 400.0);
  }

  lemma LatePurchase(rules: Rules, later: real)
    requires rules.delay > 0 && rules.slippageBps == 0.0 && rules.feeRate == 0.0
    ensures
      var a := Open(rules, Opened(1000.0), 30, JumpQuote(later), 1);
      && |a.log.signals| == 1 && a.log.signals[0].delayedPrice == later
      && (!rules.limitOrders ==> a.cash == 1000.0 - later)
  {
    assert DelayedPrice(rules, JumpQuote(later)) == later;
  }

  /** Whatever the data, an account depends only on what was shown before; `exact` includes its records. */
  ghost predicate NeverLooksAhead(rules: Rules, exact: bool) {
    forall m: Market, n: Market, start: real, date: Date, t: nat :: AgreeBefore(m, n, date, t) ==>
      SameAccount(exact, DayAt(rules, m, start, date, t).account, DayAt(rules, n, start, date, t).account)
  }

  /** No rules with the program's indicators and the given delay and kind of orders look ahead. */
  ghost predicate SettingsNeverLookAhead(period: nat, round: real -> real, delay: nat, limitOrders: bool, exact: bool) {
    forall rules: Rules ::
      UsesProgramIndicators(rules, period, round) && rules.delay == delay && rules.limitOrders == limitOrders ==>
      NeverLooksAhead(rules, exact)
  }

  /** Within a day, accounts and records depend only on what was shown before exactly when orders are not
      delayed; cash, positions and results alone also when they are limit orders. */
  lemma NoLookAheadWithinDayIff(period: nat, round: real -> real, delay: nat, limitOrders: bool)
    requires 1 < period < 30 && RoundsToTenths(round)
    ensures SettingsNeverLookAhead(period, round, delay, limitOrders, true) <==> delay == 0
    ensures SettingsNeverLookAhead(period, round, delay, limitOrders, false) <==> delay == 0 || limitOrders
  {
    forall rules: Rules, exact: bool, m: Market, n: Market, start: real, date: Date, t: nat |
      rules.delay == delay && rules.limitOrders == limitOrders && AgreeBefore(m, n, date, t)
        && (delay == 0 || (limitOrders && !exact))
      ensures SameAccount(exact, DayAt(rules, m, start, date, t).account, DayAt(rules, n, start, date, t).account)
    {
      DaysGoAlike(rules, exact, m, n, start, date, t);
    }
    if delay > 0 {
      LateOrdersLookAhead(period, round, delay, limitOrders);
      PlainRulesUseProgramIndicators(period, round, delay, limitOrders);
      JumpMarketsAgree(300.0, 400.0);
      WitnessLooksAhead(PlainRules(period, round, delay, limitOrders), JumpMarket(300.0), JumpMarket(400.0), 1000.0, 30,
                        OPENING + 1);
    }
  }

  lemma WitnessLooksAhead(rules: Rules, m: Market, n: Market, start: real, date: Date, t: nat)
    requires AgreeBefore(m, n, date, t)
    ensures
      var a, b := DayAt(rules, m, start, date, t).account, DayAt(rules, n, start, date, t).account;
      (a.log != b.log ==> !NeverLooksAhead(rules, true)) && (a.cash != b.cash ==> !NeverLooksAhead(rules, false))
  {}
}
