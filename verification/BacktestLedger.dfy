/** What every step of a backtest run keeps, and so what holds throughout every run. */
module BacktestLedger {
  import opened Common
  import opened Backtest

  // ---------------------------------------------------------------- keeping a property

  /** Every step that a day can take on the account keeps `P`, given quotes that satisfy `Q`. */
  ghost predicate Keeps(rules: Rules, m: Market, date: Date, P: Account -> bool, Q: Tick -> bool) {
    && (forall a: Account, tick: Tick, note: Note :: P(a) && Q(tick) ==> P(Close(rules, a, date, tick, note)))
    && (forall a: Account, tick: Tick :: P(a) && Q(tick) ==> P(Raise(a, tick)))
    && (forall a: Account, tick: Tick :: P(a) && Q(tick) ==> P(TryBuy(rules, m, a, date, tick)))
  }

  ghost predicate StageKept(st: Stage, P: Account -> bool, Q: Tick -> bool) {
    P(st.account) && forall k :: 0 <= k < |st.intents| ==> Q(st.intents[k].tick)
  }

  ghost predicate AllTicks(ticks: seq<Tick>, Q: Tick -> bool) {
    forall k :: 0 <= k < |ticks| ==> Q(ticks[k])
  }

  lemma {:induction false} TradeMomentKeeps(rules: Rules, m: Market, seen: map<Symbol, seq<real>>, date: Date,
                                            a: Account, ticks: seq<Tick>, P: Account -> bool, Q: Tick -> bool)
    requires Keeps(rules, m, date, P, Q) && P(a) && AllTicks(ticks, Q)
    ensures P(TradeMoment(rules, m, seen, date, a, ticks))
  {
    var observe, sell, buy := Observer(rules, m, seen, date), Seller(rules, date), Buyer(rules, m, date);
    var kept, good := (st: Stage) => StageKept(st, P, Q), (intent: Intent) => Q(intent.tick);
    forall st: Stage, tick: Tick | kept(st) && Q(tick) ensures kept(observe(st, tick)) {}
    FoldKeeps(observe, Stage(a, {}, []), ticks, kept, Q);
    var st := Fold(observe, Stage(a, {}, []), ticks);
    FoldKeeps(sell, st.account, st.intents, P, good);
    FoldKeeps(buy, Fold(sell, st.account, st.intents), st.intents, P, good);
  }

  /** Every quote of a day satisfies `Q`. */
  ghost predicate DayTicks(m: Market, date: Date, Q: Tick -> bool) {
    forall t: Time, s: Symbol :: t < END_OF_DAY && s in m.universe && TickAt(m, date, t, s).Some? ==>
      Q(TickAt(m, date, t, s).value)
  }

  lemma {:induction false} TicksComeFromSymbols(m: Market, date: Date, t: Time, symbols: seq<Symbol>)
    ensures forall k :: 0 <= k < |TicksAt(m, date, t, symbols)| ==>
      var tick := TicksAt(m, date, t, symbols)[k];
      tick.symbol in symbols && TickAt(m, date, t, tick.symbol) == Some(tick)
  {
    if symbols != [] {
      TicksComeFromSymbols(m, date, t, symbols[..|symbols| - 1]);
    }
  }

  lemma TicksSatisfy(m: Market, date: Date, t: Time, Q: Tick -> bool)
    requires DayTicks(m, date, Q) && t < END_OF_DAY
    ensures AllTicks(TicksAt(m, date, t, m.universe), Q)
  {
    TicksComeFromSymbols(m, date, t, m.universe);
  }

  ghost predicate AllClosing(closing: map<Symbol, Tick>, Q: Tick -> bool) {
    forall s :: s in closing ==> closing[s].symbol == s && Q(closing[s])
  }

  ghost predicate DayKept(day: Day, P: Account -> bool, Q: Tick -> bool) {
    P(day.account) && AllClosing(day.closing, Q)
  }

  lemma {:induction false} MomentKeeps(rules: Rules, m: Market, date: Date, day: Day, ticks: seq<Tick>,
                                       P: Account -> bool, Q: Tick -> bool)
    requires Keeps(rules, m, date, P, Q) && DayKept(day, P, Q) && AllTicks(ticks, Q)
    ensures DayKept(Moment(rules, m, date, day, ticks), P, Q)
  {
    TradeMomentKeeps(rules, m, day.feed.seen, date, day.account, ticks, P, Q);
    FoldKeeps(Closer(), day.closing, ticks, closing => AllClosing(closing, Q), Q);
  }

  lemma {:induction false} DayUntilKeeps(rules: Rules, m: Market, date: Date, a: Account, feed: Feed, t: nat,
                                         P: Account -> bool, Q: Tick -> bool)
    requires Keeps(rules, m, date, P, Q) && P(a) && DayTicks(m, date, Q) && t <= END_OF_DAY
    ensures DayKept(DayUntil(rules, m, date, a, feed, t), P, Q)
  {
    var clock := Clock(rules, m, date);
    var kept, early := (day: Day) => DayKept(day, P, Q), (t: Time) => t < END_OF_DAY;
    forall day: Day, t: Time | kept(day) && early(t) ensures kept(clock(day, t)) {
      TicksSatisfy(m, date, t, Q);
      MomentKeeps(rules, m, date, day, TicksAt(m, date, t, m.universe), P, Q);
    }
    FoldKeeps(clock, Day(a, feed, map[]), Seconds(t), kept, early);
  }

  lemma {:induction false} EndDayKeeps(rules: Rules, m: Market, date: Date, day: Day, P: Account -> bool,
                                       Q: Tick -> bool)
    requires Keeps(rules, m, date, P, Q) && DayKept(day, P, Q)
    ensures P(EndDay(rules, date, day))
  {
    FoldKeeps(Liquidator(rules, date, day.closing), day.account, day.account.order, P, _ => true);
  }

  lemma {:induction false} RunDateKeeps(rules: Rules, m: Market, run: Run, date: Date, P: Account -> bool,
                                        Q: Tick -> bool)
    requires Keeps(rules, m, date, P, Q) && P(run.account) && DayTicks(m, date, Q)
    ensures P(RunDate(rules, m, run, date).account)
  {
    DayUntilKeeps(rules, m, date, run.account, run.feed, END_OF_DAY, P, Q);
    EndDayKeeps(rules, m, date, DayUntil(rules, m, date, run.account, run.feed, END_OF_DAY), P, Q);
  }

  /** A property of the opening account that every step keeps holds at the end of every run and, with
      `DayUntilKeeps`, at every moment on the way. */
  lemma {:induction false} RunKeeps(rules: Rules, m: Market, cash: real, dates: seq<Date>, P: Account -> bool,
                                    Q: Tick -> bool)
    requires forall date :: date in dates ==> Keeps(rules, m, date, P, Q) && DayTicks(m, date, Q)
    requires P(Opened(cash))
    ensures P(RunDates(rules, m, cash, dates).account)
  {
    var runner := Runner(rules, m);
    var kept, known := (run: Run) => P(run.account), (date: Date) => date in dates;
    forall run: Run, date: Date | kept(run) && known(date) ensures kept(runner(run, date)) {
      RunDateKeeps(rules, m, run, date, P, Q);
    }
    FoldKeeps(runner, Run(Opened(cash), Feed(map[], map[])), dates, kept, known);
  }

  /** The same at a moment of one more day. */
  lemma {:induction false} RunAndDayKeep(rules: Rules, m: Market, cash: real, dates: seq<Date>, date: Date, t: nat,
                                         P: Account -> bool, Q: Tick -> bool)
    requires forall d :: d in dates + [date] ==> Keeps(rules, m, d, P, Q) && DayTicks(m, d, Q)
    requires P(Opened(cash)) && t <= END_OF_DAY
    ensures
      var run := RunDates(rules, m, cash, dates);
      P(run.account) && P(DayUntil(rules, m, date, run.account, run.feed, t).account)
  {
    assert date in dates + [date];
    RunKeeps(rules, m, cash, dates, P, Q);
    var run := RunDates(rules, m, cash, dates);
    DayUntilKeeps(rules, m, date, run.account, run.feed, t, P, Q);
  }

  lemma DayTurn(rules: Rules, m: Market, date: Date, a: Account, feed: Feed, t: nat)
    ensures DayUntil(rules, m, date, a, feed, t + 1) ==
            Moment(rules, m, date, DayUntil(rules, m, date, a, feed, t), TicksAt(m, date, t, m.universe))
  {
    var clock, start, seconds := Clock(rules, m, date), Day(a, feed, map[]), Seconds(t + 1);
    assert seconds[..t] == Seconds(t) && seconds[..t + 1] == seconds;
    FoldTurn(clock, start, seconds, t);
  }

  // ---------------------------------------------------------------- keys

  ghost function OpenSymbols(holdings: map<Symbol, int>): set<Symbol> {
    set s | s in holdings && holdings[s] > 0
  }

  /** The keys are listed once each, and no quantity is negative. */
  ghost predicate OrderSound(order: seq<Symbol>, holdings: map<Symbol, int>) {
    && (forall i, j :: 0 <= i < j < |order| ==> order[i] != order[j])
    && (forall s :: s in order <==> s in holdings)
    && (forall s :: s in holdings ==> holdings[s] >= 0)
  }

  /** The details of a position are recorded for exactly the open positions. */
  ghost predicate DetailsSound(open: set<Symbol>, e: Entries) {
    && e.prices.Keys == open && e.highs.Keys == open && e.fees.Keys == open
    && e.dates.Keys == open && e.times.Keys <= open
  }

  ghost predicate KeysSound(a: Account) {
    && OrderSound(a.order, a.holdings)
    && a.avgCost.Keys == a.holdings.Keys
    && DetailsSound(OpenSymbols(a.holdings), a.entries)
  }

  lemma ClosedSymbols(holdings: map<Symbol, int>, s: Symbol)
    ensures OpenSymbols(holdings[s := 0]) == OpenSymbols(holdings) - {s}
  {}

  lemma OpenedSymbols(holdings: map<Symbol, int>, s: Symbol, quantity: int)
    requires quantity > 0
    ensures OpenSymbols(holdings[s := quantity]) == OpenSymbols(holdings) + {s}
  {}

  lemma RaiseKeepsKeys(a: Account, tick: Tick)
    requires KeysSound(a)
    ensures KeysSound(Raise(a, tick))
  {
  }

  lemma CloseKeepsKeys(rules: Rules, a: Account, date: Date, tick: Tick, note: Note)
    requires KeysSound(a)
    ensures KeysSound(Close(rules, a, date, tick, note))
  {
    ClosedSymbols(a.holdings, tick.symbol);
    DropKeepsDetails(OpenSymbols(a.holdings), a.entries, tick.symbol);
  }

  lemma OpenKeepsOrder(order: seq<Symbol>, holdings: map<Symbol, int>, s: Symbol, quantity: int)
    requires OrderSound(order, holdings) && quantity > 0
    ensures OrderSound(if s in holdings then order else order + [s], holdings[s := quantity])
  {
    var longer := if s in holdings then order else order + [s];
    assert s in longer;
    forall x ensures x in longer <==> x in holdings[s := quantity] {
      assert x in longer <==> x in order || x == s;
    }
  }

  lemma EnterKeepsDetails(open: set<Symbol>, e: Entries, s: Symbol, price: real, fee: real, date: Date,
                          time: Option<Time>)
    requires DetailsSound(open, e)
    ensures DetailsSound(open + {s}, Enter(e, s, price, fee, date, time))
  {}

  lemma DropKeepsDetails(open: set<Symbol>, e: Entries, s: Symbol)
    requires DetailsSound(open, e)
    ensures DetailsSound(open - {s}, Drop(e, s))
  {}

  /** A purchase leaves the account alone or opens a position with a positive quantity that the
      cash pays for, in a free slot. */
  lemma TryBuyOpensOrNothing(rules: Rules, m: Market, a: Account, date: Date, tick: Tick)
    ensures
      var b := TryBuy(rules, m, a, date, tick);
      || b == a
      || (&& OrderQuantity(rules, m, a, date, tick) > 0
          && b == Open(rules, a, date, tick, OrderQuantity(rules, m, a, date, tick))
          && Held(a, tick.symbol) == 0
          && !PositionsFull(rules, a)
          && b.cash >= 0.0)
  {}

  lemma OpenKeepsKeys(rules: Rules, a: Account, date: Date, tick: Tick, quantity: int)
    requires KeysSound(a) && quantity > 0
    ensures KeysSound(Open(rules, a, date, tick, quantity))
  {
    OpenKeepsOrder(a.order, a.holdings, tick.symbol, quantity);
    OpenedSymbols(a.holdings, tick.symbol, quantity);
    var price := ExecutionPrice(rules, Buy, tick);
    EnterKeepsDetails(OpenSymbols(a.holdings), a.entries, tick.symbol, price, Fee(rules, price, quantity), date,
                      tick.time);
  }

  lemma TryBuyKeepsKeys(rules: Rules, m: Market, a: Account, date: Date, tick: Tick)
    requires KeysSound(a)
    ensures KeysSound(TryBuy(rules, m, a, date, tick))
  {
    TryBuyOpensOrNothing(rules, m, a, date, tick);
    if TryBuy(rules, m, a, date, tick) != a {
      OpenKeepsKeys(rules, a, date, tick, OrderQuantity(rules, m, a, date, tick));
    }
  }

  lemma KeysAreKept(rules: Rules, m: Market, date: Date)
    ensures Keeps(rules, m, date, KeysSound, _ => true)
  {
    forall a: Account, tick: Tick | KeysSound(a)
      ensures KeysSound(TryBuy(rules, m, a, date, tick)) && KeysSound(Raise(a, tick))
    {
      TryBuyKeepsKeys(rules, m, a, date, tick);
    }
    forall a: Account, tick: Tick, note: Note | KeysSound(a) ensures KeysSound(Close(rules, a, date, tick, note)) {
      CloseKeepsKeys(rules, a, date, tick, note);
    }
  }

  // ---------------------------------------------------------------- conservation of money

  /** What the open positions have cost. */
  function CostOf(order: seq<Symbol>, holdings: map<Symbol, int>, avgCost: map<Symbol, real>): real {
    if order == [] then 0.0
    else
      var s := order[|order| - 1];
      CostOf(order[..|order| - 1], holdings, avgCost) + Amount(Get(avgCost, s, 0.0), Get(holdings, s, 0))
  }

  /** Cash and the cost of the open positions are the starting cash and the realized results. */
  ghost predicate Balanced(start: real, a: Account) {
    KeysSound(a) && a.cash + CostOf(a.order, a.holdings, a.avgCost) == start + Sum(a.log.results)
  }

  lemma {:induction false} CostWithout(order: seq<Symbol>, holdings: map<Symbol, int>, avgCost: map<Symbol, real>,
                                       s: Symbol, quantity: int, cost: real)
    requires s !in order
    ensures CostOf(order, holdings[s := quantity], avgCost[s := cost]) == CostOf(order, holdings, avgCost)
  {
    if order != [] {
      assert order[|order| - 1] in order;
      CostWithout(order[..|order| - 1], holdings, avgCost, s, quantity, cost);
    }
  }

  lemma {:induction false} CostUpdated(order: seq<Symbol>, holdings: map<Symbol, int>, avgCost: map<Symbol, real>,
                                       s: Symbol, quantity: int, cost: real)
    requires s in order && forall i, j :: 0 <= i < j < |order| ==> order[i] != order[j]
    ensures CostOf(order, holdings[s := quantity], avgCost[s := cost]) ==
            CostOf(order, holdings, avgCost) - Amount(Get(avgCost, s, 0.0), Get(holdings, s, 0))
              + Amount(cost, quantity)
  {
    var rest, last := order[..|order| - 1], order[|order| - 1];
    if last == s {
      CostWithout(rest, holdings, avgCost, s, quantity, cost);
    } else {
      CostUpdated(rest, holdings, avgCost, s, quantity, cost);
    }
  }

  lemma ProfitIsProceedsLessCost(price: real, cost: real, quantity: int, fee: real)
    ensures Profit(price, cost, quantity, fee) == Amount(price, quantity) - fee - Amount(cost, quantity)
  {}

  lemma UnitCostCoversFee(price: real, quantity: int, fee: real)
    requires quantity > 0
    ensures Amount(UnitCost(price, quantity, fee), quantity) == Amount(price, quantity) + fee
  {
    var n := quantity as real;
    assert fee / n * n == fee;
  }

  lemma CloseKeepsBalance(start: real, rules: Rules, a: Account, date: Date, tick: Tick, note: Note)
    requires Balanced(start, a)
    ensures Balanced(start, Close(rules, a, date, tick, note))
  {
    CloseKeepsKeys(rules, a, date, tick, note);
    var s, quantity := tick.symbol, Held(a, tick.symbol);
    if quantity > 0 {
      var price := ExecutionPrice(rules, Sell, tick);
      var fee, cost := Fee(rules, price, quantity), Get(a.avgCost, s, 0.0);
      ProfitIsProceedsLessCost(price, cost, quantity, fee);
      CostUpdated(a.order, a.holdings, a.avgCost, s, 0, 0.0);
      var pnl := Profit(price, cost, quantity, fee);
      assert (a.log.results + [pnl])[..|a.log.results|] == a.log.results;
    }
  }

  lemma OpenKeepsBalance(start: real, rules: Rules, a: Account, date: Date, tick: Tick, quantity: int)
    requires Balanced(start, a) && quantity > 0 && Held(a, tick.symbol) == 0
    ensures Balanced(start, Open(rules, a, date, tick, quantity))
  {
    OpenKeepsKeys(rules, a, date, tick, quantity);
    var s := tick.symbol;
    var price := ExecutionPrice(rules, Buy, tick);
    var fee := Fee(rules, price, quantity);
    var cost := UnitCost(price, quantity, fee);
    UnitCostCoversFee(price, quantity, fee);
    if s in a.holdings {
      CostUpdated(a.order, a.holdings, a.avgCost, s, quantity, cost);
    } else {
      CostWithout(a.order, a.holdings, a.avgCost, s, quantity, cost);
      assert (a.order + [s])[..|a.order|] == a.order;
    }
  }

  lemma BalanceIsKept(start: real, rules: Rules, m: Market, date: Date)
    ensures Keeps(rules, m, date, a => Balanced(start, a), _ => true)
  {
    KeysAreKept(rules, m, date);
    forall a: Account, tick: Tick | Balanced(start, a) ensures Balanced(start, TryBuy(rules, m, a, date, tick)) {
      if TryBuy(rules, m, a, date, tick) != a {
        OpenKeepsBalance(start, rules, a, date, tick, OrderQuantity(rules, m, a, date, tick));
      }
    }
    forall a: Account, tick: Tick, note: Note | Balanced(start, a)
      ensures Balanced(start, Close(rules, a, date, tick, note)) {
      CloseKeepsBalance(start, rules, a, date, tick, note);
    }
    forall a: Account, tick: Tick | Balanced(start, a) ensures Balanced(start, Raise(a, tick)) {}
  }

  /** Money is conserved at the end of every run. */
  lemma {:induction false} MoneyIsConserved(rules: Rules, m: Market, start: real, dates: seq<Date>)
    ensures Balanced(start, RunDates(rules, m, start, dates).account)
  {
    forall date | date in dates ensures Keeps(rules, m, date, a => Balanced(start, a), _ => true) {
      BalanceIsKept(start, rules, m, date);
    }
    RunKeeps(rules, m, start, dates, a => Balanced(start, a), _ => true);
  }

  /** Money is conserved at every moment of every day. */
  lemma {:induction false} MoneyIsConservedThroughoutTheDay(rules: Rules, m: Market, start: real, dates: seq<Date>,
                                                            date: Date, t: Time)
    requires t <= END_OF_DAY
    ensures
      var run := RunDates(rules, m, start, dates);
      Balanced(start, DayUntil(rules, m, date, run.account, run.feed, t).account)
  {
    var run := RunDates(rules, m, start, dates);
    MoneyIsConserved(rules, m, start, dates);
    BalanceIsKept(start, rules, m, date);
    DayUntilKeeps(rules, m, date, run.account, run.feed, t, a => Balanced(start, a), _ => true);
  }
}
