/** A backtest run never looks ahead: what it has done up to a date depends only on the data up to
    that date. */
module BacktestLookAhead {
  import opened Common
  import opened Backtest
  import opened BacktestLedger

  // ---------------------------------------------------------------- data that agree up to a date

  ghost predicate SameUntil<T>(a: map<Date, T>, b: map<Date, T>, d: Date) {
    forall date :: date <= d ==> (date in a <==> date in b) && (date in a ==> a[date] == b[date])
  }

  /** The data agree on every date up to `d`. Nothing is said of which symbols occur later. */
  ghost predicate Agree(m: Market, n: Market, d: Date) {
    && SameUntil(m.selected, n.selected, d)
    && (forall s :: SameUntil(Get(m.closes, s, map[]), Get(n.closes, s, map[]), d))
    && (forall s :: SameUntil(Get(m.bars, s, map[]), Get(n.bars, s, map[]), d))
    && (forall s: Symbol, date: Date :: date <= d ==>
        Get(Get(m.minutes, s, map[]), date, []) == Get(Get(n.minutes, s, map[]), date, []))
    && m.regimes.Some? == n.regimes.Some?
    && (forall date: Date :: date <= d ==> RegimeOn(m, date) == RegimeOn(n, date))
  }

  /** The dates up to `d`. */
  function UpTo(dates: seq<Date>, d: Date): seq<Date> {
    if dates == [] then []
    else UpTo(dates[..|dates| - 1], d) + (if dates[|dates| - 1] <= d then [dates[|dates| - 1]] else [])
  }

  /** The members of `s` that belong to `r`, in their order. */
  function Restrict(s: seq<nat>, r: set<nat>): seq<nat> {
    if s == [] then []
    else Restrict(s[..|s| - 1], r) + (if s[|s| - 1] in r then [s[|s| - 1]] else [])
  }

  lemma {:induction false} RestrictAscends(s: seq<nat>, r: set<nat>)
    requires Ascends(s)
    ensures Ascends(Restrict(s, r))
    ensures forall x :: x in Restrict(s, r) <==> x in s && x in r
  {
    if s != [] {
      RestrictAscends(s[..|s| - 1], r);
      var rest := Restrict(s[..|s| - 1], r);
      forall i | 0 <= i < |rest| ensures rest[i] < s[|s| - 1] {
        assert rest[i] in rest;
      }
    }
  }

  lemma {:induction false} UpToAscends(dates: seq<Date>, d: Date)
    requires Ascends(dates)
    ensures Ascends(UpTo(dates, d))
    ensures forall x :: x in UpTo(dates, d) <==> x in dates && x <= d
  {
    if dates != [] {
      UpToAscends(dates[..|dates| - 1], d);
      var rest := UpTo(dates[..|dates| - 1], d);
      forall i | 0 <= i < |rest| ensures rest[i] < dates[|dates| - 1] {
        assert rest[i] in rest;
      }
    }
  }

  lemma SomeMember(s: seq<nat>) returns (x: nat)
    requires s != []
    ensures x in s
  {
    x := s[0];
  }

  /** Ascending sequences with the same members are the same. */
  lemma {:induction false} SameMembers(a: seq<nat>, b: seq<nat>)
    requires Ascends(a) && Ascends(b) && forall x :: x in a <==> x in b
    ensures a == b
  {
    if a == [] {
      if b != [] {
        var x := SomeMember(b);
      }
    } else {
      assert a[0] in b;
      var x, y := a[|a| - 1], b[|b| - 1];
      assert x in b && y in a;
      assert x == y;
      var c, e := a[..|a| - 1], b[..|b| - 1];
      forall z ensures z in c <==> z in e {
        assert z in c <==> z in a && z != x;
        assert z in e <==> z in b && z != y;
      }
      SameMembers(c, e);
      assert a == c + [x] && b == e + [y];
    }
  }

  // ---------------------------------------------------------------- indicators

  lemma {:induction false} BeforeAgrees<T>(a: map<Date, T>, b: map<Date, T>, date: Date, d: Date)
    requires SameUntil(a, b, d) && date <= d + 1
    ensures Before(a, date) == Before(b, date)
  {
    if date > 0 {
      BeforeAgrees(a, b, date - 1, d);
    }
  }

  /** Daily indicators use only strictly earlier dates. */
  lemma IndicatorsUseEarlierDates(m: Market, n: Market, s: Symbol, date: Date)
    requires date > 0 && Agree(m, n, date - 1)
    ensures BarsBefore(m, s, date) == BarsBefore(n, s, date)
    ensures ClosesBefore(m, s, date) == ClosesBefore(n, s, date)
  {
    BeforeAgrees(Get(m.bars, s, map[]), Get(n.bars, s, map[]), date, date - 1);
    BeforeAgrees(Get(m.closes, s, map[]), Get(n.closes, s, map[]), date, date - 1);
  }

  /** What a day uses of other data than its quotes is the same: indicators, selection and regime. */
  ghost predicate SameDay(m: Market, n: Market, date: Date) {
    && (forall s :: BarsBefore(m, s, date) == BarsBefore(n, s, date))
    && (forall s :: ClosesBefore(m, s, date) == ClosesBefore(n, s, date))
    && Get(m.selected, date, {}) == Get(n.selected, date, {})
    && m.regimes.Some? == n.regimes.Some? && RegimeOn(m, date) == RegimeOn(n, date)
  }

  lemma AgreementMakesSameDay(m: Market, n: Market, date: Date, d: Date)
    requires Agree(m, n, d) && date <= d
    ensures SameDay(m, n, date)
  {
    forall s ensures BarsBefore(m, s, date) == BarsBefore(n, s, date)
      && ClosesBefore(m, s, date) == ClosesBefore(n, s, date) {
      BeforeAgrees(Get(m.bars, s, map[]), Get(n.bars, s, map[]), date, d);
      BeforeAgrees(Get(m.closes, s, map[]), Get(n.closes, s, map[]), date, d);
    }
    assert SameUntil(m.selected, n.selected, d);
  }

  // ---------------------------------------------------------------- quotes and accounts that agree

  /** Two quotes show the same price at the same time and are executed alike. If `exact`, the price that is
      recorded as delayed is the same as well. The rest of their days may differ. */
  ghost predicate SameQuote(rules: Rules, exact: bool, x: Tick, y: Tick) {
    && x.symbol == y.symbol && x.price == y.price && x.time == y.time
    && (exact || !rules.limitOrders ==> DelayedPrice(rules, x) == DelayedPrice(rules, y))
  }

  /** Two accounts hold the same cash, positions and results. If `exact`, their records are the same as well. */
  ghost predicate SameAccount(exact: bool, a: Account, b: Account) {
    && a.cash == b.cash && a.order == b.order && a.holdings == b.holdings && a.avgCost == b.avgCost
    && a.entries == b.entries && a.log.results == b.log.results
    && (exact ==> a.log == b.log)
  }

  ghost predicate SameQuotes(rules: Rules, exact: bool, xs: seq<Tick>, ys: seq<Tick>) {
    |xs| == |ys| && forall k :: 0 <= k < |xs| ==> SameQuote(rules, exact, xs[k], ys[k])
  }

  /** All symbols are quoted alike at a second of a day. */
  ghost predicate QuotedAlike(rules: Rules, exact: bool, m: Market, n: Market, date: Date, t: Time) {
    forall s :: var x, y := TickAt(m, date, t, s), TickAt(n, date, t, s);
      x.Some? == y.Some? && (x.Some? ==> SameQuote(rules, exact, x.value, y.value))
  }

  lemma {:induction false} TicksAgree(rules: Rules, exact: bool, m: Market, n: Market, date: Date, t: Time,
                                      symbols: seq<Symbol>)
    requires QuotedAlike(rules, exact, m, n, date, t)
    ensures SameQuotes(rules, exact, TicksAt(m, date, t, symbols), TicksAt(n, date, t, symbols))
  {
    if symbols != [] {
      TicksAgree(rules, exact, m, n, date, t, symbols[..|symbols| - 1]);
      assert TickAt(m, date, t, symbols[|symbols| - 1]).Some? == TickAt(n, date, t, symbols[|symbols| - 1]).Some?;
    }
  }

  lemma AgreementQuotesAlike(rules: Rules, m: Market, n: Market, date: Date, d: Date, t: Time)
    requires Agree(m, n, d) && date <= d
    ensures QuotedAlike(rules, true, m, n, date, t)
  {
    forall s ensures TickAt(m, date, t, s) == TickAt(n, date, t, s) {
      var closes, others := Get(m.closes, s, map[]), Get(n.closes, s, map[]);
      assert SameUntil(closes, others, d);
      assert date in closes <==> date in others;
      assert date in closes ==> closes[date] == others[date];
    }
  }

  // ---------------------------------------------------------------- one step in two runs

  lemma PricesAgree(rules: Rules, exact: bool, side: Side, x: Tick, y: Tick)
    requires SameQuote(rules, exact, x, y)
    ensures ExecutionPrice(rules, side, x) == ExecutionPrice(rules, side, y)
  {}

  lemma CloseAgrees(rules: Rules, exact: bool, a: Account, b: Account, date: Date, x: Tick, y: Tick, note: Note)
    requires SameAccount(exact, a, b) && SameQuote(rules, exact, x, y)
    ensures SameAccount(exact, Close(rules, a, date, x, note), Close(rules, b, date, y, note))
  {
    PricesAgree(rules, exact, Sell, x, y);
  }

  lemma OpenAgrees(rules: Rules, exact: bool, a: Account, b: Account, date: Date, x: Tick, y: Tick, quantity: int)
    requires SameAccount(exact, a, b) && SameQuote(rules, exact, x, y) && quantity > 0
    ensures SameAccount(exact, Open(rules, a, date, x, quantity), Open(rules, b, date, y, quantity))
  {
    PricesAgree(rules, exact, Buy, x, y);
  }

  lemma TryBuyAgrees(rules: Rules, exact: bool, m: Market, n: Market, date: Date, a: Account, b: Account, x: Tick,
                     y: Tick)
    requires SameDay(m, n, date) && SameAccount(exact, a, b) && SameQuote(rules, exact, x, y)
    ensures SameAccount(exact, TryBuy(rules, m, a, date, x), TryBuy(rules, n, b, date, y))
  {
    PricesAgree(rules, exact, Buy, x, y);
    assert BarsBefore(m, x.symbol, date) == BarsBefore(n, y.symbol, date);
    var quantity := OrderQuantity(rules, m, a, date, x);
    assert quantity == OrderQuantity(rules, n, b, date, y);
    if quantity > 0 {
      OpenAgrees(rules, exact, a, b, date, x, y, quantity);
    }
  }

  ghost predicate SeenAgree(seen: map<Symbol, seq<real>>, other: map<Symbol, seq<real>>, r: set<Symbol>) {
    forall s :: s in r ==> Get(seen, s, []) == Get(other, s, [])
  }

  ghost predicate SameIntents(rules: Rules, exact: bool, xs: seq<Intent>, ys: seq<Intent>) {
    && |xs| == |ys|
    && forall k :: 0 <= k < |xs| ==> xs[k].side == ys[k].side && SameQuote(rules, exact, xs[k].tick, ys[k].tick)
  }

  ghost predicate SameStage(rules: Rules, exact: bool, st: Stage, other: Stage) {
    && SameAccount(exact, st.account, other.account) && st.stopped == other.stopped
    && SameIntents(rules, exact, st.intents, other.intents)
  }

  lemma StopsAgree(rules: Rules, exact: bool, m: Market, n: Market, date: Date, st: Stage, other: Stage, x: Tick,
                   y: Tick)
    requires SameDay(m, n, date) && SameStage(rules, exact, st, other) && SameQuote(rules, exact, x, y)
    ensures SameStage(rules, exact, Stopped(rules, m, st, date, x), Stopped(rules, n, other, date, y))
  {
    var a, b := Raise(st.account, x), Raise(other.account, y);
    assert SameAccount(exact, a, b);
    assert BarsBefore(m, x.symbol, date) == BarsBefore(n, y.symbol, date);
    var note := StopNote(rules, m, a, date, x);
    assert note == StopNote(rules, n, b, date, y);
    if note.Some? {
      CloseAgrees(rules, exact, a, b, date, x, y, note.value);
    }
  }

  /** Two quotes of the same price and time have the same signal when the records of the symbol agree. */
  lemma SignalsAgree(rules: Rules, m: Market, n: Market, seen: map<Symbol, seq<real>>, other: map<Symbol, seq<real>>,
                     date: Date, x: Tick, y: Tick)
    requires SameDay(m, n, date) && Get(seen, x.symbol, []) == Get(other, y.symbol, [])
    requires x.symbol == y.symbol && x.price == y.price && x.time == y.time
    ensures Evaluate(rules, m, seen, date, x) == Evaluate(rules, n, other, date, y)
  {
    assert ClosesBefore(m, x.symbol, date) == ClosesBefore(n, y.symbol, date);
    assert IndicatorPrices(rules, m, seen, date, x) == IndicatorPrices(rules, n, other, date, y);
  }

  lemma ObserveAgrees(rules: Rules, exact: bool, m: Market, n: Market, seen: map<Symbol, seq<real>>,
                      other: map<Symbol, seq<real>>, date: Date, st: Stage, ot: Stage, x: Tick, y: Tick)
    requires SameDay(m, n, date) && Get(seen, x.symbol, []) == Get(other, x.symbol, [])
    requires SameStage(rules, exact, st, ot) && SameQuote(rules, exact, x, y)
    ensures SameStage(rules, exact, Observe(rules, m, seen, date, st, x), Observe(rules, n, other, date, ot, y))
  {
    StopsAgree(rules, exact, m, n, date, st, ot, x, y);
    SignalsAgree(rules, m, n, seen, other, date, x, y);
    assert Get(m.selected, date, {}) == Get(n.selected, date, {});
  }

  // ---------------------------------------------------------------- symbols that do not matter

  /** The quotes of the symbols in `r`. */
  function Kept(ticks: seq<Tick>, r: set<Symbol>): seq<Tick> {
    if ticks == [] then []
    else Kept(ticks[..|ticks| - 1], r) + (if ticks[|ticks| - 1].symbol in r then [ticks[|ticks| - 1]] else [])
  }

  lemma KeptTurn(ticks: seq<Tick>, r: set<Symbol>)
    requires ticks != []
    ensures
      var rest, last := ticks[..|ticks| - 1], ticks[|ticks| - 1];
      Kept(ticks, r) == if last.symbol in r then Kept(rest, r) + [last] else Kept(rest, r)
  {
    assert Kept(ticks[..|ticks| - 1], r) + [] == Kept(ticks[..|ticks| - 1], r);
  }

  lemma KeptStep(ticks: seq<Tick>, last: Tick, r: set<Symbol>)
    ensures Kept(ticks + [last], r) == Kept(ticks, r) + (if last.symbol in r then [last] else [])
  {
    assert (ticks + [last])[..|ticks|] == ticks;
  }

  lemma TicksStep(m: Market, date: Date, t: Time, symbols: seq<Symbol>, s: Symbol)
    ensures TicksAt(m, date, t, symbols + [s]) ==
            TicksAt(m, date, t, symbols) + (if TickAt(m, date, t, s).Some? then [TickAt(m, date, t, s).value] else [])
  {
    assert (symbols + [s])[..|symbols|] == symbols;
  }

  lemma {:induction false} KeptTicksAreRestricted(m: Market, date: Date, t: Time, symbols: seq<Symbol>, r: set<Symbol>)
    ensures Kept(TicksAt(m, date, t, symbols), r) == TicksAt(m, date, t, Restrict(symbols, r))
  {
    if symbols != [] {
      var rest, s := symbols[..|symbols| - 1], symbols[|symbols| - 1];
      KeptTicksAreRestricted(m, date, t, rest, r);
      var tick, ticks, kept := TickAt(m, date, t, s), TicksAt(m, date, t, rest), Restrict(rest, r);
      if tick.Some? {
        assert TicksAt(m, date, t, symbols) == ticks + [tick.value];
        KeptStep(ticks, tick.value, r);
      } else {
        assert TicksAt(m, date, t, symbols) == ticks;
      }
      if s in r {
        TicksStep(m, date, t, kept, s);
      } else {
        assert Restrict(symbols, r) == kept;
      }
    }
  }

  /** Open positions and today's selection lie within `r`. */
  ghost predicate Matters(r: set<Symbol>, m: Market, date: Date, a: Account) {
    OpenSymbols(a.holdings) <= r && Get(m.selected, date, {}) <= r
  }

  lemma ObserveStaysWithin(rules: Rules, m: Market, seen: map<Symbol, seq<real>>, date: Date, st: Stage, tick: Tick)
    ensures OpenSymbols(Observe(rules, m, seen, date, st, tick).account.holdings) <= OpenSymbols(st.account.holdings)
  {
    ClosedSymbols(st.account.holdings, tick.symbol);
  }

  lemma IrrelevantQuoteDoesNothing(rules: Rules, m: Market, seen: map<Symbol, seq<real>>, date: Date, st: Stage,
                                   tick: Tick, r: set<Symbol>)
    requires Matters(r, m, date, st.account) && tick.symbol !in r
    ensures Observe(rules, m, seen, date, st, tick) == st
  {
    assert tick.symbol !in OpenSymbols(st.account.holdings);
  }

  lemma {:induction false} OnlyKeptQuotesMatter(rules: Rules, m: Market, seen: map<Symbol, seq<real>>, date: Date,
                                                a: Account, ticks: seq<Tick>, r: set<Symbol>)
    requires Matters(r, m, date, a)
    ensures
      var observe := Observer(rules, m, seen, date);
      && Fold(observe, Stage(a, {}, []), ticks) == Fold(observe, Stage(a, {}, []), Kept(ticks, r))
      && Matters(r, m, date, Fold(observe, Stage(a, {}, []), ticks).account)
  {
    if ticks != [] {
      var observe, rest, last := Observer(rules, m, seen, date), ticks[..|ticks| - 1], ticks[|ticks| - 1];
      OnlyKeptQuotesMatter(rules, m, seen, date, a, rest, r);
      KeptTurn(ticks, r);
      var st := Fold(observe, Stage(a, {}, []), rest);
      ObserveStaysWithin(rules, m, seen, date, st, last);
      if last.symbol in r {
        FoldStep(observe, Stage(a, {}, []), Kept(rest, r), last);
      } else {
        IrrelevantQuoteDoesNothing(rules, m, seen, date, st, last, r);
      }
    }
  }

  // ---------------------------------------------------------------- one moment in two runs

  lemma {:induction false} ObservingAgrees(rules: Rules, exact: bool, m: Market, n: Market,
                                           seen: map<Symbol, seq<real>>, other: map<Symbol, seq<real>>, date: Date,
                                           st: Stage, ot: Stage, xs: seq<Tick>, ys: seq<Tick>, r: set<Symbol>)
    requires SameDay(m, n, date) && SeenAgree(seen, other, r) && SameStage(rules, exact, st, ot)
    requires SameQuotes(rules, exact, xs, ys) && forall k :: 0 <= k < |xs| ==> xs[k].symbol in r
    ensures SameStage(rules, exact, Fold(Observer(rules, m, seen, date), st, xs),
                      Fold(Observer(rules, n, other, date), ot, ys))
  {
    if xs != [] {
      var k := |xs| - 1;
      ObservingAgrees(rules, exact, m, n, seen, other, date, st, ot, xs[..k], ys[..k], r);
      ObserveAgrees(rules, exact, m, n, seen, other, date, Fold(Observer(rules, m, seen, date), st, xs[..k]),
                    Fold(Observer(rules, n, other, date), ot, ys[..k]), xs[k], ys[k]);
    }
  }

  lemma {:induction false} SellingAgrees(rules: Rules, exact: bool, date: Date, a: Account, b: Account, xs: seq<Intent>,
                                         ys: seq<Intent>)
    requires SameAccount(exact, a, b) && SameIntents(rules, exact, xs, ys)
    ensures SameAccount(exact, Fold(Seller(rules, date), a, xs), Fold(Seller(rules, date), b, ys))
  {
    if xs != [] {
      var k := |xs| - 1;
      SellingAgrees(rules, exact, date, a, b, xs[..k], ys[..k]);
      CloseAgrees(rules, exact, Fold(Seller(rules, date), a, xs[..k]), Fold(Seller(rules, date), b, ys[..k]), date,
                  xs[k].tick, ys[k].tick, NoNote);
    }
  }

  lemma {:induction false} BuyingAgrees(rules: Rules, exact: bool, m: Market, n: Market, date: Date, a: Account,
                                        b: Account, xs: seq<Intent>, ys: seq<Intent>)
    requires SameDay(m, n, date) && SameAccount(exact, a, b) && SameIntents(rules, exact, xs, ys)
    ensures SameAccount(exact, Fold(Buyer(rules, m, date), a, xs), Fold(Buyer(rules, n, date), b, ys))
  {
    if xs != [] {
      var k := |xs| - 1;
      BuyingAgrees(rules, exact, m, n, date, a, b, xs[..k], ys[..k]);
      TryBuyAgrees(rules, exact, m, n, date, Fold(Buyer(rules, m, date), a, xs[..k]),
                   Fold(Buyer(rules, n, date), b, ys[..k]),
                   xs[k].tick, ys[k].tick);
    }
  }

  lemma {:induction false} KeptMembers(ticks: seq<Tick>, r: set<Symbol>)
    ensures forall k :: 0 <= k < |Kept(ticks, r)| ==> Kept(ticks, r)[k].symbol in r
  {
    if ticks != [] {
      KeptMembers(ticks[..|ticks| - 1], r);
    }
  }

  /** Two runs that agree on the quotes that matter trade alike at a moment. */
  lemma {:induction false} TradingAgrees(rules: Rules, exact: bool, m: Market, n: Market, seen: map<Symbol, seq<real>>,
                                         other: map<Symbol, seq<real>>, date: Date, a: Account, b: Account,
                                         xs: seq<Tick>, ys: seq<Tick>, r: set<Symbol>)
    requires SameDay(m, n, date) && SeenAgree(seen, other, r) && SameAccount(exact, a, b)
    requires Matters(r, m, date, a) && SameQuotes(rules, exact, Kept(xs, r), Kept(ys, r))
    ensures SameAccount(exact, TradeMoment(rules, m, seen, date, a, xs), TradeMoment(rules, n, other, date, b, ys))
  {
    OnlyKeptQuotesMatter(rules, m, seen, date, a, xs, r);
    OnlyKeptQuotesMatter(rules, n, other, date, b, ys, r);
    KeptMembers(xs, r);
    ObservingAgrees(rules, exact, m, n, seen, other, date, Stage(a, {}, []), Stage(b, {}, []), Kept(xs, r), Kept(ys, r),
                    r);
    var st, ot := Fold(Observer(rules, m, seen, date), Stage(a, {}, []), xs),
      Fold(Observer(rules, n, other, date), Stage(b, {}, []), ys);
    SellingAgrees(rules, exact, date, st.account, ot.account, st.intents, ot.intents);
    BuyingAgrees(rules, exact, m, n, date, Fold(Seller(rules, date), st.account, st.intents),
                 Fold(Seller(rules, date), ot.account, ot.intents), st.intents, ot.intents);
  }

  // ---------------------------------------------------------------- the records of two runs

  /** What a quote adds to the prices seen of a symbol. */
  function Added(tick: Tick, s: Symbol): seq<real> {
    if tick.symbol == s && tick.time.Some? then [tick.price] else []
  }

  /** What quotes add to the prices seen of a symbol. */
  function AddedBy(ticks: seq<Tick>, s: Symbol): seq<real> {
    if ticks == [] then [] else AddedBy(ticks[..|ticks| - 1], s) + Added(ticks[|ticks| - 1], s)
  }

  lemma RecordAdds(feed: Feed, tick: Tick, s: Symbol)
    ensures Get(Record(feed, tick).seen, s, []) == Get(feed.seen, s, []) + Added(tick, s)
  {}

  lemma {:induction false} RecordsAdd(feed: Feed, ticks: seq<Tick>, s: Symbol)
    ensures Get(Fold(Recorder(), feed, ticks).seen, s, []) == Get(feed.seen, s, []) + AddedBy(ticks, s)
  {
    if ticks != [] {
      var rest, last := ticks[..|ticks| - 1], ticks[|ticks| - 1];
      RecordsAdd(feed, rest, s);
      RecordAdds(Fold(Recorder(), feed, rest), last, s);
      Regroup(Get(feed.seen, s, []), AddedBy(rest, s), Added(last, s));
    }
  }

  lemma Regroup(a: seq<real>, b: seq<real>, c: seq<real>)
    ensures (a + b) + c == a + (b + c)
  {}

  lemma AddedTurn(ticks: seq<Tick>, tick: Tick, s: Symbol)
    ensures AddedBy(ticks + [tick], s) == AddedBy(ticks, s) + Added(tick, s)
  {
    assert (ticks + [tick])[..|ticks|] == ticks;
  }

  lemma {:induction false} OthersAddNothing(ticks: seq<Tick>, r: set<Symbol>, s: Symbol)
    requires s in r
    ensures AddedBy(ticks, s) == AddedBy(Kept(ticks, r), s)
  {
    if ticks != [] {
      var rest, last := ticks[..|ticks| - 1], ticks[|ticks| - 1];
      OthersAddNothing(rest, r, s);
      KeptTurn(ticks, r);
      if last.symbol in r {
        AddedTurn(Kept(rest, r), last, s);
      }
    }
  }

  lemma {:induction false} SameQuotesAddAlike(rules: Rules, exact: bool, xs: seq<Tick>, ys: seq<Tick>, s: Symbol)
    requires SameQuotes(rules, exact, xs, ys)
    ensures AddedBy(xs, s) == AddedBy(ys, s)
  {
    if xs != [] {
      var k := |xs| - 1;
      SameQuotesAddAlike(rules, exact, xs[..k], ys[..k], s);
      assert SameQuote(rules, exact, xs[k], ys[k]);
    }
  }

  lemma SeenStaysAgreed(rules: Rules, exact: bool, feed: Feed, other: Feed, xs: seq<Tick>, ys: seq<Tick>,
                        r: set<Symbol>)
    requires SeenAgree(feed.seen, other.seen, r) && SameQuotes(rules, exact, Kept(xs, r), Kept(ys, r))
    ensures SeenAgree(Fold(Recorder(), feed, xs).seen, Fold(Recorder(), other, ys).seen, r)
  {
    forall s | s in r
      ensures Get(Fold(Recorder(), feed, xs).seen, s, []) == Get(Fold(Recorder(), other, ys).seen, s, [])
    {
      RecordsAdd(feed, xs, s);
      RecordsAdd(other, ys, s);
      OthersAddNothing(xs, r, s);
      OthersAddNothing(ys, r, s);
      SameQuotesAddAlike(rules, exact, Kept(xs, r), Kept(ys, r), s);
    }
  }

  /** The closing quotes agree on `r`, and each stands under its own symbol. */
  ghost predicate ClosingAgree(rules: Rules, exact: bool, closing: map<Symbol, Tick>, other: map<Symbol, Tick>,
                               r: set<Symbol>) {
    && (forall s :: s in r ==>
        (s in closing <==> s in other) && (s in closing ==> SameQuote(rules, exact, closing[s], other[s])))
    && (forall s :: s in closing ==> closing[s].symbol == s)
    && (forall s :: s in other ==> other[s].symbol == s)
  }

  lemma {:induction false} ClosingKeepsOthers(closing: map<Symbol, Tick>, ticks: seq<Tick>, r: set<Symbol>, s: Symbol)
    requires s in r
    ensures
      var all, kept := Fold(Closer(), closing, ticks), Fold(Closer(), closing, Kept(ticks, r));
      (s in all <==> s in kept) && (s in all ==> all[s] == kept[s])
  {
    if ticks != [] {
      var rest, last := ticks[..|ticks| - 1], ticks[|ticks| - 1];
      ClosingKeepsOthers(closing, rest, r, s);
      KeptTurn(ticks, r);
      if last.symbol in r {
        FoldStep(Closer(), closing, Kept(rest, r), last);
      }
    }
  }

  lemma {:induction false} ClosingsAgree(rules: Rules, exact: bool, closing: map<Symbol, Tick>,
                                         other: map<Symbol, Tick>, xs: seq<Tick>, ys: seq<Tick>, r: set<Symbol>)
    requires ClosingAgree(rules, exact, closing, other, r) && SameQuotes(rules, exact, xs, ys)
    ensures ClosingAgree(rules, exact, Fold(Closer(), closing, xs), Fold(Closer(), other, ys), r)
  {
    if xs != [] {
      var k := |xs| - 1;
      ClosingsAgree(rules, exact, closing, other, xs[..k], ys[..k], r);
      assert SameQuote(rules, exact, xs[k], ys[k]);
    }
  }

  lemma {:induction false} ClosingKeyed(closing: map<Symbol, Tick>, ticks: seq<Tick>)
    requires forall s :: s in closing ==> closing[s].symbol == s
    ensures forall s :: s in Fold(Closer(), closing, ticks) ==> Fold(Closer(), closing, ticks)[s].symbol == s
  {
    if ticks != [] {
      ClosingKeyed(closing, ticks[..|ticks| - 1]);
    }
  }

  lemma ClosingStaysAgreed(rules: Rules, exact: bool, closing: map<Symbol, Tick>, other: map<Symbol, Tick>,
                           xs: seq<Tick>, ys: seq<Tick>, r: set<Symbol>)
    requires ClosingAgree(rules, exact, closing, other, r) && SameQuotes(rules, exact, Kept(xs, r), Kept(ys, r))
    ensures ClosingAgree(rules, exact, Fold(Closer(), closing, xs), Fold(Closer(), other, ys), r)
  {
    ClosingsAgree(rules, exact, closing, other, Kept(xs, r), Kept(ys, r), r);
    ClosingKeyed(closing, xs);
    ClosingKeyed(other, ys);
    var a, b := Fold(Closer(), closing, xs), Fold(Closer(), other, ys);
    forall s | s in r ensures (s in a <==> s in b) && (s in a ==> SameQuote(rules, exact, a[s], b[s])) {
      ClosingKeepsOthers(closing, xs, r, s);
      ClosingKeepsOthers(other, ys, r, s);
    }
  }

  // ---------------------------------------------------------------- days and runs

  /** Two runs in the same account state, with agreeing records for the symbols that matter. */
  ghost predicate DaysAgree(rules: Rules, exact: bool, day: Day, other: Day, r: set<Symbol>) {
    && SameAccount(exact, day.account, other.account)
    && SeenAgree(day.feed.seen, other.feed.seen, r)
    && ClosingAgree(rules, exact, day.closing, other.closing, r)
    && OpenSymbols(day.account.holdings) <= r
  }

  ghost predicate WithinSymbols(r: set<Symbol>, a: Account) {
    OpenSymbols(a.holdings) <= r
  }

  /** Trading opens positions only in selected symbols. */
  lemma {:induction false} TradingStaysWithin(rules: Rules, m: Market, seen: map<Symbol, seq<real>>, date: Date,
                                              a: Account, ticks: seq<Tick>, r: set<Symbol>)
    requires Matters(r, m, date, a)
    ensures OpenSymbols(TradeMoment(rules, m, seen, date, a, ticks).holdings) <= r
  {
    var start, kept := Stage(a, {}, []), Kept(ticks, r);
    OnlyKeptQuotesMatter(rules, m, seen, date, a, ticks, r);
    KeptMembers(ticks, r);
    IntentsComeFromTicks(rules, m, seen, date, start, kept, r);
    var st := Fold(Observer(rules, m, seen, date), start, kept);
    IntentsStayWithin(rules, m, date, st.account, st.intents, r);
  }

  ghost predicate IntentsWithin(intents: seq<Intent>, r: set<Symbol>) {
    forall k :: 0 <= k < |intents| ==> intents[k].tick.symbol in r
  }

  lemma {:induction false} IntentsComeFromTicks(rules: Rules, m: Market, seen: map<Symbol, seq<real>>, date: Date,
                                                st: Stage, ticks: seq<Tick>, r: set<Symbol>)
    requires IntentsWithin(st.intents, r) && forall k :: 0 <= k < |ticks| ==> ticks[k].symbol in r
    ensures IntentsWithin(Fold(Observer(rules, m, seen, date), st, ticks).intents, r)
  {
    if ticks != [] {
      IntentsComeFromTicks(rules, m, seen, date, st, ticks[..|ticks| - 1], r);
    }
  }

  lemma {:induction false} SellingStaysWithin(rules: Rules, date: Date, a: Account, intents: seq<Intent>)
    ensures OpenSymbols(Fold(Seller(rules, date), a, intents).holdings) <= OpenSymbols(a.holdings)
  {
    if intents != [] {
      var rest, last := intents[..|intents| - 1], intents[|intents| - 1];
      SellingStaysWithin(rules, date, a, rest);
      ClosedSymbols(Fold(Seller(rules, date), a, rest).holdings, last.tick.symbol);
    }
  }

  lemma {:induction false} BuyingStaysWithin(rules: Rules, m: Market, date: Date, a: Account, intents: seq<Intent>,
                                             r: set<Symbol>)
    requires WithinSymbols(r, a) && IntentsWithin(intents, r)
    ensures WithinSymbols(r, Fold(Buyer(rules, m, date), a, intents))
  {
    if intents != [] {
      var rest, last := intents[..|intents| - 1], intents[|intents| - 1];
      BuyingStaysWithin(rules, m, date, a, rest, r);
      var b := Fold(Buyer(rules, m, date), a, rest);
      if TryBuy(rules, m, b, date, last.tick) != b {
        OpenedSymbols(b.holdings, last.tick.symbol, OrderQuantity(rules, m, b, date, last.tick));
      }
    }
  }

  lemma IntentsStayWithin(rules: Rules, m: Market, date: Date, a: Account, intents: seq<Intent>, r: set<Symbol>)
    requires WithinSymbols(r, a) && IntentsWithin(intents, r)
    ensures WithinSymbols(r, Fold(Buyer(rules, m, date), Fold(Seller(rules, date), a, intents), intents))
  {
    SellingStaysWithin(rules, date, a, intents);
    BuyingStaysWithin(rules, m, date, Fold(Seller(rules, date), a, intents), intents, r);
  }

  lemma MomentsAgree(rules: Rules, exact: bool, m: Market, n: Market, date: Date, day: Day, other: Day,
                     xs: seq<Tick>, ys: seq<Tick>, r: set<Symbol>)
    requires SameDay(m, n, date) && DaysAgree(rules, exact, day, other, r)
    requires Get(m.selected, date, {}) <= r && SameQuotes(rules, exact, Kept(xs, r), Kept(ys, r))
    ensures DaysAgree(rules, exact, Moment(rules, m, date, day, xs), Moment(rules, n, date, other, ys), r)
  {
    TradingAgrees(rules, exact, m, n, day.feed.seen, other.feed.seen, date, day.account, other.account, xs, ys, r);
    TradingStaysWithin(rules, m, day.feed.seen, date, day.account, xs, r);
    SeenStaysAgreed(rules, exact, day.feed, other.feed, xs, ys, r);
    ClosingStaysAgreed(rules, exact, day.closing, other.closing, xs, ys, r);
  }

  /** The symbols in `r` occur in both markets. */
  ghost predicate Known(r: set<Symbol>, m: Market, n: Market) {
    Ascends(m.universe) && Ascends(n.universe) && forall s :: s in r ==> s in m.universe && s in n.universe
  }

  /** The symbols in `r` are quoted alike in both markets. */
  lemma KeptTicksAgree(rules: Rules, exact: bool, m: Market, n: Market, date: Date, t: Time, r: set<Symbol>)
    requires Known(r, m, n) && QuotedAlike(rules, exact, m, n, date, t)
    ensures SameQuotes(rules, exact, Kept(TicksAt(m, date, t, m.universe), r), Kept(TicksAt(n, date, t, n.universe), r))
  {
    KeptTicksAreRestricted(m, date, t, m.universe, r);
    KeptTicksAreRestricted(n, date, t, n.universe, r);
    RestrictAscends(m.universe, r);
    RestrictAscends(n.universe, r);
    SameMembers(Restrict(m.universe, r), Restrict(n.universe, r));
    TicksAgree(rules, exact, m, n, date, t, Restrict(m.universe, r));
  }

  /** Two days with the same quotes before `t` have gone alike until then. */
  lemma {:induction false} DaysStayAgreed(rules: Rules, exact: bool, m: Market, n: Market, date: Date, a: Account,
                                          b: Account, feed: Feed, other: Feed, t: nat, r: set<Symbol>)
    requires SameDay(m, n, date) && Known(r, m, n) && forall u: Time :: u < t ==>
      QuotedAlike(rules, exact, m, n, date, u)
    requires Matters(r, m, date, a) && SameAccount(exact, a, b) && SeenAgree(feed.seen, other.seen, r)
    ensures DaysAgree(rules, exact, DayUntil(rules, m, date, a, feed, t), DayUntil(rules, n, date, b, other, t), r)
  {
    if t > 0 {
      DaysStayAgreed(rules, exact, m, n, date, a, b, feed, other, t - 1, r);
      DayTurn(rules, m, date, a, feed, t - 1);
      DayTurn(rules, n, date, b, other, t - 1);
      KeptTicksAgree(rules, exact, m, n, date, t - 1, r);
      MomentsAgree(rules, exact, m, n, date, DayUntil(rules, m, date, a, feed, t - 1),
                   DayUntil(rules, n, date, b, other, t - 1),
                   TicksAt(m, date, t - 1, m.universe), TicksAt(n, date, t - 1, n.universe), r);
    }
  }

  lemma CloseOnAgrees(rules: Rules, exact: bool, date: Date, closing: map<Symbol, Tick>, other: map<Symbol, Tick>,
                      a: Account, b: Account, s: Symbol, r: set<Symbol>)
    requires ClosingAgree(rules, exact, closing, other, r) && SameAccount(exact, a, b) && OpenSymbols(a.holdings) <= r
    ensures
      var c := CloseOn(rules, a, date, closing, s);
      SameAccount(exact, c, CloseOn(rules, b, date, other, s)) && OpenSymbols(c.holdings) <= r
  {
    ClosedSymbols(a.holdings, s);
    if s in r {
      if s in closing {
        CloseAgrees(rules, exact, a, b, date, closing[s], other[s], EndOfDayNote);
      }
    } else {
      assert s !in OpenSymbols(a.holdings) && s !in OpenSymbols(b.holdings);
    }
  }

  lemma {:induction false} LiquidationAgrees(rules: Rules, exact: bool, date: Date, closing: map<Symbol, Tick>,
                                             other: map<Symbol, Tick>, a: Account, b: Account, keys: seq<Symbol>,
                                             r: set<Symbol>)
    requires ClosingAgree(rules, exact, closing, other, r) && SameAccount(exact, a, b) && OpenSymbols(a.holdings) <= r
    ensures
      var c := Fold(Liquidator(rules, date, closing), a, keys);
      SameAccount(exact, c, Fold(Liquidator(rules, date, other), b, keys)) && OpenSymbols(c.holdings) <= r
  {
    if keys != [] {
      var rest, s := keys[..|keys| - 1], keys[|keys| - 1];
      LiquidationAgrees(rules, exact, date, closing, other, a, b, rest, r);
      CloseOnAgrees(rules, exact, date, closing, other, Fold(Liquidator(rules, date, closing), a, rest),
                    Fold(Liquidator(rules, date, other), b, rest), s, r);
    }
  }

  ghost predicate RunsAgree(run: Run, other: Run, r: set<Symbol>) {
    && run.account == other.account
    && SeenAgree(run.feed.seen, other.feed.seen, r)
    && OpenSymbols(run.account.holdings) <= r
  }

  lemma {:induction false} RunDateAgrees(rules: Rules, m: Market, n: Market, date: Date, d: Date, run: Run, other: Run,
                                         r: set<Symbol>)
    requires Agree(m, n, d) && date <= d && Known(r, m, n)
    requires Get(m.selected, date, {}) <= r && RunsAgree(run, other, r)
    ensures RunsAgree(RunDate(rules, m, run, date), RunDate(rules, n, other, date), r)
  {
    AgreementMakesSameDay(m, n, date, d);
    forall u: Time ensures QuotedAlike(rules, true, m, n, date, u) {
      AgreementQuotesAlike(rules, m, n, date, d, u);
    }
    DaysStayAgreed(rules, true, m, n, date, run.account, other.account, run.feed, other.feed, END_OF_DAY, r);
    var day := DayUntil(rules, m, date, run.account, run.feed, END_OF_DAY);
    var otherDay := DayUntil(rules, n, date, other.account, other.feed, END_OF_DAY);
    LiquidationAgrees(rules, true, date, day.closing, otherDay.closing, day.account, otherDay.account,
                      day.account.order, r);
  }

  lemma {:induction false} RunDatesAgree(rules: Rules, m: Market, n: Market, start: real, dates: seq<Date>, d: Date,
                                         r: set<Symbol>)
    requires Agree(m, n, d) && Known(r, m, n)
    requires forall date :: date in dates ==> date <= d && Get(m.selected, date, {}) <= r
    ensures RunsAgree(RunDates(rules, m, start, dates), RunDates(rules, n, start, dates), r)
  {
    if dates != [] {
      var rest, last := dates[..|dates| - 1], dates[|dates| - 1];
      assert last in dates && forall x :: x in rest ==> x in dates;
      RunDatesAgree(rules, m, n, start, rest, d, r);
      RunDateAgrees(rules, m, n, last, d, RunDates(rules, m, start, rest), RunDates(rules, n, start, rest), r);
    }
  }

  /** The symbols selected on the dates up to `d`. */
  ghost function SelectedUntil(m: Market, d: Date): set<Symbol> {
    set date, s | date in m.selected && date <= d && s in m.selected[date] :: s
  }

  lemma SameDatesUntil(m: Market, n: Market, d: Date)
    requires WellFormed(m) && WellFormed(n) && Agree(m, n, d)
    ensures UpTo(m.dates, d) == UpTo(n.dates, d)
    ensures forall date :: date in UpTo(m.dates, d) ==> date <= d && Get(m.selected, date, {}) <= SelectedUntil(m, d)
  {
    UpToAscends(m.dates, d);
    UpToAscends(n.dates, d);
    assert SameUntil(m.selected, n.selected, d);
    SameMembers(UpTo(m.dates, d), UpTo(n.dates, d));
  }

  lemma SelectedUntilIsKnown(m: Market, n: Market, d: Date)
    requires WellFormed(m) && WellFormed(n) && Agree(m, n, d)
    ensures Known(SelectedUntil(m, d), m, n)
  {
    forall s | s in SelectedUntil(m, d) ensures s in m.universe && s in n.universe {
      var date :| date in m.selected && date <= d && s in m.selected[date];
      assert SameUntil(m.selected, n.selected, d) && date in n.selected && s in n.selected[date];
    }
  }

  ghost predicate DatesAgree(rules: Rules, m: Market, n: Market, start: real, dates: seq<Date>, r: set<Symbol>) {
    RunsAgree(RunDates(rules, m, start, dates), RunDates(rules, n, start, dates), r)
  }

  lemma EarlierRunsAgree(rules: Rules, m: Market, n: Market, start: real, d: Date, r: set<Symbol>)
    returns (dates: seq<Date>)
    requires WellFormed(m) && WellFormed(n) && Agree(m, n, d) && Known(r, m, n) && SelectedUntil(m, d) <= r
    ensures dates == UpTo(m.dates, d) == UpTo(n.dates, d)
    ensures DatesAgree(rules, m, n, start, dates, r)
  {
    SameDatesUntil(m, n, d);
    dates := UpTo(m.dates, d);
    RunDatesAgree(rules, m, n, start, dates, d, r);
  }

  /** Two markets that agree up to a date leave the same cash, holdings, signals and trade history
      after it, whatever either holds for later dates. */
  lemma {:induction false} NoLookAhead(rules: Rules, m: Market, n: Market, start: real, d: Date)
    requires WellFormed(m) && WellFormed(n) && Agree(m, n, d)
    ensures UpTo(m.dates, d) == UpTo(n.dates, d)
    ensures RunDates(rules, m, start, UpTo(m.dates, d)).account == RunDates(rules, n, start, UpTo(n.dates, d)).account
  {
    SelectedUntilIsKnown(m, n, d);
    var dates := EarlierRunsAgree(rules, m, n, start, d, SelectedUntil(m, d));
  }

  // ---------------------------------------------------------------- records only grow

  ghost predicate Extends(base: Account, a: Account) {
    base.log.results <= a.log.results && base.log.history <= a.log.history && base.log.signals <= a.log.signals
  }

  ghost function Extending(base: Account): Account -> bool {
    a => Extends(base, a)
  }

  lemma OneDateOnlyAdds(base: Account, rules: Rules, m: Market, run: Run, date: Date)
    requires Extends(base, run.account)
    ensures Extends(base, RunDate(rules, m, run, date).account)
  {
    RunDateKeeps(rules, m, run, date, Extending(base), _ => true);
    assert Extending(base)(RunDate(rules, m, run, date).account);
  }

  ghost predicate RunExtends(base: Account, run: Run) {
    Extends(base, run.account)
  }

  /** Later dates only add to the records. */
  lemma {:induction false} LaterDatesOnlyAdd(rules: Rules, m: Market, start: real, dates: seq<Date>, k: nat)
    requires k <= |dates|
    ensures Extends(RunDates(rules, m, start, dates[..k]).account, RunDates(rules, m, start, dates).account)
  {
    var runner, first := Runner(rules, m), RunDates(rules, m, start, dates[..k]);
    FoldSplit(runner, Run(Opened(start), Feed(map[], map[])), dates, k);
    forall run: Run, date: Date | RunExtends(first.account, run) ensures RunExtends(first.account, runner(run, date)) {
      OneDateOnlyAdds(first.account, rules, m, run, date);
    }
    FoldKeeps(runner, first, dates[k..], run => RunExtends(first.account, run), _ => true);
  }
}
