/** Why a backtest run sells, and when it must: the stop falls on the first quote after the purchase that is at or below
    the trailing line or the loss limit, with the line drawn from the highest quote held. */
module BacktestStops {
  import opened Common
  import opened ExitLines
  import opened Backtest
  import opened BacktestLedger
  import opened BacktestLookAhead
  import opened BacktestWithinDay
  import opened BacktestPositions
  import opened BacktestConditions

  // ---------------------------------------------------------------- quotes of a run

  /** A second of a date. */
  datatype When = When(date: Date, time: Time)

  predicate Precedes(x: When, y: When) {
    x.date < y.date || (x.date == y.date && x.time < y.time)
  }

  function Next(x: When): When {
    When(x.date, x.time + 1)
  }

  /** The moment of a record. A daily replay has no time of day and trades at the close. */
  function At(date: Date, time: Option<Time>): When {
    When(date, if time.Some? then time.value else CLOSE_OF_DAY)
  }

  function Moment(signal: Signal): When {
    At(signal.date, signal.time)
  }

  /** A run over some dates, and the symbol that is followed. */
  datatype Course = Course(rules: Rules, m: Market, dates: seq<Date>, symbol: Symbol)

  function Quote(c: Course, w: When): Option<Tick> {
    TickAt(c.m, w.date, w.time, c.symbol)
  }

  ghost predicate QuotedBetween(c: Course, from: When, w: When, until: When) {
    w.date in c.dates && w.time < END_OF_DAY && Precedes(from, w) && Precedes(w, until) && Quote(c, w).Some?
  }

  /** `high` is the highest of the entry price and the quotes after `from` and before `until`. */
  ghost predicate IsHigh(c: Course, high: real, entry: real, from: When, until: When) {
    && entry <= high
    && (forall w :: QuotedBetween(c, from, w, until) ==> Quote(c, w).value.price <= high)
    && (high == entry || exists w :: QuotedBetween(c, from, w, until) && Quote(c, w).value.price == high)
  }

  lemma HighIsUnique(c: Course, high: real, other: real, entry: real, from: When, until: When)
    requires IsHigh(c, high, entry, from, until) && IsHigh(c, other, entry, from, until)
    ensures high == other
  {}

  lemma HighRises(c: Course, high: real, entry: real, from: When, w: When)
    requires IsHigh(c, high, entry, from, w) && w.date in c.dates && w.time < END_OF_DAY && Precedes(from, w)
    requires Quote(c, w).Some?
    ensures IsHigh(c, Max(high, Quote(c, w).value.price), entry, from, Next(w))
  {
    var higher := Max(high, Quote(c, w).value.price);
    assert QuotedBetween(c, from, w, Next(w));
    forall x | QuotedBetween(c, from, x, Next(w)) ensures Quote(c, x).value.price <= higher {
      assert x == w || QuotedBetween(c, from, x, w);
    }
    if higher == high && high != entry {
      var x :| QuotedBetween(c, from, x, w) && Quote(c, x).value.price == high;
      assert QuotedBetween(c, from, x, Next(w));
    }
  }

  /** Nothing is quoted between two moments. */
  ghost predicate Quiet(c: Course, now: When, later: When) {
    && (forall w: When :: Precedes(w, now) ==> Precedes(w, later))
    && (forall w: When :: w.date in c.dates && w.time < END_OF_DAY && Precedes(w, later) && Quote(c, w).Some? ==>
          Precedes(w, now))
  }

  // ---------------------------------------------------------------- the levels

  /** The stop that a position hits at a quote, in terms of its levels. */
  lemma StopIsAtLevel(c: Course, p: Position, date: Date, tick: Tick)
    requires SoundExits(c.rules) && tick.symbol == c.symbol && p.Position?
    ensures
      var trailing := AtTrailingLine(c.rules, BarsBefore(c.m, c.symbol, date), p.price, p.high, tick.price);
      NoteFor(c.rules, c.m, p, date, tick) ==
        if trailing then Some(AtrStopNote)
        else if AtLossLimit(c.rules, p.cost, tick.price) then Some(StopLossNote)
        else None
  {
    var bars := BarsBefore(c.m, c.symbol, date);
    if c.rules.assess(bars).Some? {
      TrailingLineIff(c.rules, bars, p.price, p.high, tick.price);
    }
  }

  /** What a stop leaves open lies above both levels. */
  lemma StopViewIsAbove(c: Course, v: View, after: View, date: Date, tick: Tick)
    requires SoundExits(c.rules) && tick.symbol == c.symbol && after.position.Position?
    requires
      var note := NoteFor(c.rules, c.m, RaisedView(v, tick).position, date, tick);
      after == StopView(c.rules, v, date, tick, note)
    ensures
      var p := after.position;
      && !AtTrailingLine(c.rules, BarsBefore(c.m, c.symbol, date), p.price, p.high, tick.price)
      && !AtLossLimit(c.rules, p.cost, tick.price) && tick.price <= p.high
  {
    StopIsAtLevel(c, RaisedView(v, tick).position, date, tick);
  }

  /** After the stops of a moment a position that is still open and was quoted lies strictly above both levels,
      whatever the account was before. */
  lemma StopsLeaveAbove(c: Course, seen: map<Symbol, seq<real>>, w: When, a: Account)
    requires SoundExits(c.rules) && Ascends(c.m.universe) && c.symbol in c.m.universe && KeysSound(a)
    ensures
      var ticks := TicksAt(c.m, w.date, w.time, c.m.universe);
      var b := Fold(Observer(c.rules, c.m, seen, w.date), Stage(a, {}, []), ticks).account;
      var s := c.symbol;
      Held(b, s) > 0 && Quote(c, w).Some? ==>
        && s in b.entries.prices && s in b.entries.highs && s in b.avgCost
        && var price := Quote(c, w).value.price;
           && !AtTrailingLine(c.rules, BarsBefore(c.m, c.symbol, w.date), b.entries.prices[s], b.entries.highs[s],
                              price)
           && !AtLossLimit(c.rules, b.avgCost[s], price)
           && price <= b.entries.highs[s]
  {
    StageShows(c.rules, c.m, seen, w.date, w.time, a, c.symbol);
    var b := Fold(Observer(c.rules, c.m, seen, w.date), Stage(a, {}, []), TicksAt(c.m, w.date, w.time, c.m.universe))
      .account;
    if Held(b, c.symbol) > 0 && Quote(c, w).Some? {
      assert c.symbol in OpenSymbols(b.holdings);
      StopViewIsAbove(c, ViewOf(a, c.symbol), ViewOf(b, c.symbol), w.date, Quote(c, w).value);
      assert PositionOf(b, c.symbol) == ViewOf(b, c.symbol).position;
    }
  }

  // ---------------------------------------------------------------- the signals

  /** The prices by which a quote is judged: as many as the rules ask for of the minute prices before it, on the
      date and earlier, or of the closes of earlier dates. */
  function PricesBefore(c: Course, w: When): seq<real> {
    var all :=
      if c.rules.minuteIndicators && Quote(c, w).Some? && Quote(c, w).value.time.Some?
      then DatedMinutePrices(c.m, EarlierDates(c.dates, w.date), c.symbol) + MinutePrices(c.m, w.date, c.symbol, w.time)
      else ClosesBefore(c.m, c.symbol, w.date);
    if |all| <= c.rules.minimumCloses then all else all[|all| - c.rules.minimumCloses..]
  }

  ghost predicate Selected(c: Course, date: Date) {
    date in c.m.selected && c.symbol in c.m.selected[date]
  }

  ghost predicate Sells(c: Course, w: When) {
    Selected(c, w.date) && Quote(c, w).Some? && AsksToSell(c.rules, PricesBefore(c, w), Quote(c, w).value.price)
  }

  ghost predicate Buys(c: Course, w: When) {
    && Selected(c, w.date) && Quote(c, w).Some?
    && AsksToBuy(c.rules, PricesBefore(c, w), Quote(c, w).value.price, Calm(c.m, w.date))
  }

  /** The minute prices that a run has recorded when it comes to a moment. */
  ghost predicate Known(c: Course, seen: map<Symbol, seq<real>>, w: When) {
    Get(seen, c.symbol, []) ==
      DatedMinutePrices(c.m, EarlierDates(c.dates, w.date), c.symbol) + MinutePrices(c.m, w.date, c.symbol, w.time)
  }

  /** A quote gives a signal exactly when its price and strength meet the rules. */
  lemma QuoteSignalsIff(c: Course, seen: map<Symbol, seq<real>>, w: When, note: Option<Note>)
    requires Known(c, seen, w) && Quote(c, w).Some?
    ensures
      var tick := Quote(c, w).value;
      var intent := SignalAt(c.rules, c.m, seen, w.date, tick, note);
      && (intent == Some(Intent(tick, Sell)) <==> note.None? && Sells(c, w))
      && (intent == Some(Intent(tick, Buy)) <==> note.None? && Buys(c, w))
      && (intent.Some? ==> intent.value.tick == tick)
  {
    var tick := Quote(c, w).value;
    assert tick.symbol == c.symbol;
    assert IndicatorPrices(c.rules, c.m, seen, w.date, tick) == PricesBefore(c, w);
    BacktestConditions.SignalIff(c.rules, PricesBefore(c, w), tick.price, RegimeOn(c.m, w.date));
  }

  // ---------------------------------------------------------------- what is true of every deal

  /** A quote at which a position is kept: strictly above both levels, and no sale is signalled. */
  ghost predicate Kept(c: Course, b: Signal, high: real, w: When) {
    && Quote(c, w).Some?
    && !AtTrailingLine(c.rules, BarsBefore(c.m, c.symbol, w.date), b.price, high, Quote(c, w).value.price)
    && !AtLossLimit(c.rules, CostPerShare(b), Quote(c, w).value.price)
    && !Sells(c, w)
  }

  ghost predicate KeptAt(c: Course, b: Signal, w: When) {
    forall high :: IsHigh(c, high, b.price, Moment(b), Next(w)) ==> Kept(c, b, high, w)
  }

  /** At every quote after the purchase and before `until` the position is rightly kept. */
  ghost predicate KeptUntil(c: Course, b: Signal, until: When) {
    forall w :: QuotedBetween(c, Moment(b), w, until) ==> KeptAt(c, b, w)
  }

  /** The average cost of a purchase, its fee included. */
  function CostPerShare(b: Signal): real {
    if b.quantity > 0 then b.price + b.fee / b.quantity as real else 0.0
  }

  /** A record states a quote of the market and how the order was executed. */
  ghost predicate OfQuote(c: Course, x: Signal) {
    && x.symbol == c.symbol && Moment(x).date in c.dates && Moment(x).time < END_OF_DAY
    && Quote(c, Moment(x)).Some? && Executed(c.rules, Quote(c, Moment(x)).value, x)
  }

  /** A purchase follows a signal to buy, at the earliest at the quote after the last sale. */
  ghost predicate Entered(c: Course, deals: seq<Deal>, i: nat)
    requires i < |deals|
  {
    var b := deals[i].signal;
    && OfQuote(c, b) && b.side == Buy && b.quantity > 0 && b.note == NoNote
    && Buys(c, Moment(b))
    && (i > 0 ==> deals[i - 1].Sold? && Precedes(Moment(deals[i - 1].signal), Moment(b)))
  }

  /** The record of a trade repeats its purchase and its sale. */
  ghost predicate Recorded(b: Signal, x: Signal, trade: Trade) {
    && trade.symbol == b.symbol == x.symbol && trade.quantity == b.quantity == x.quantity
    && trade.buyPrice == b.price && trade.entryFee == b.fee && trade.entryDate == b.date && trade.entryTime == b.time
    && trade.sellPrice == x.price && trade.exitFee == x.fee && trade.exitDate == x.date && trade.exitTime == x.time
    && trade.signalPrice == x.signalPrice && trade.delayedPrice == x.delayedPrice
  }

  ghost predicate LastQuoteOfDay(c: Course, w: When) {
    forall t: Time :: w.time < t < END_OF_DAY ==> Quote(c, When(w.date, t)).None?
  }

  /** The note of a sale names its cause. */
  ghost predicate Caused(c: Course, b: Signal, x: Signal, high: real) {
    var trailing := AtTrailingLine(c.rules, BarsBefore(c.m, c.symbol, x.date), b.price, high, x.signalPrice);
    var loss := AtLossLimit(c.rules, CostPerShare(b), x.signalPrice);
    match x.note
    case AtrStopNote => Precedes(Moment(b), Moment(x)) && trailing
    case StopLossNote => Precedes(Moment(b), Moment(x)) && loss && !trailing
    case NoNote => Precedes(Moment(b), Moment(x)) && !trailing && !loss && Sells(c, Moment(x))
    case EndOfDayNote =>
      && c.rules.closeAtEndOfDay && LastQuoteOfDay(c, Moment(x))
      && (Moment(b) == Moment(x) || (Precedes(Moment(b), Moment(x)) && Kept(c, b, high, Moment(x))))
  }

  /** A sale ends the purchase before it, at the first quote that asks for it. */
  ghost predicate Left(c: Course, deals: seq<Deal>, i: nat)
    requires i < |deals| && deals[i].Sold?
  {
    && i > 0 && deals[i - 1].Bought?
    && var b, x, trade := deals[i - 1].signal, deals[i].signal, deals[i].trade;
       && OfQuote(c, x) && x.side == Sell && Recorded(b, x, trade)
       && IsHigh(c, trade.high, b.price, Moment(b), Next(Moment(x)))
       && KeptUntil(c, b, Moment(x)) && Caused(c, b, x, trade.high)
  }

  ghost predicate Justified(c: Course, deals: seq<Deal>, i: nat)
    requires i < |deals|
  {
    if deals[i].Bought? then Entered(c, deals, i) else Left(c, deals, i)
  }

  /** The open position is that of the last purchase, with the highest quote since. */
  ghost predicate Holds(c: Course, b: Signal, p: Position, now: When) {
    && p.Position? && b.quantity > 0
    && p == Position(b.quantity, CostPerShare(b), b.price, p.high, b.fee, b.date, b.time)
    && IsHigh(c, p.high, b.price, Moment(b), now) && KeptUntil(c, b, now)
  }

  /** A justified deal of an earlier moment. */
  ghost predicate Done(c: Course, deals: seq<Deal>, i: nat, now: When)
    requires i < |deals|
  {
    Justified(c, deals, i) && Precedes(Moment(deals[i].signal), now)
  }

  ghost predicate AllDone(c: Course, deals: seq<Deal>, now: When) {
    forall i :: 0 <= i < |deals| ==> Done(c, deals, i, now)
  }

  ghost predicate Followed(c: Course, v: View, now: When) {
    && AllDone(c, v.deals, now)
    && if v.deals == [] || v.deals[|v.deals| - 1].Sold? then v.position.Flat?
       else Holds(c, v.deals[|v.deals| - 1].signal, v.position, now)
  }

  // ---------------------------------------------------------------- every step justifies its deal

  lemma QuoteIsAt(c: Course, w: When)
    requires Quote(c, w).Some?
    ensures At(w.date, Quote(c, w).value.time) == w && Quote(c, w).value.symbol == c.symbol
  {}

  lemma SaleIsOfQuote(c: Course, w: When, p: Position, note: Note)
    requires Quote(c, w).Some? && w.date in c.dates && w.time < END_OF_DAY && p.Position?
    ensures
      var sold := SoldDeal(c.rules, p, w.date, Quote(c, w).value, note);
      OfQuote(c, sold.signal) && Moment(sold.signal) == w
  {
    QuoteIsAt(c, w);
    ExecutedIff(c.rules, Quote(c, w).value, SoldDeal(c.rules, p, w.date, Quote(c, w).value, note).signal);
  }

  lemma PurchaseIsOfQuote(c: Course, w: When, quantity: int)
    requires Quote(c, w).Some? && w.date in c.dates && w.time < END_OF_DAY
    ensures
      var tick := Quote(c, w).value;
      var price := ExecutionPrice(c.rules, Buy, tick);
      var b := BuySignal(c.rules, w.date, tick, quantity, price, Fee(c.rules, price, quantity));
      OfQuote(c, b) && Moment(b) == w
  {
    var tick := Quote(c, w).value;
    var price := ExecutionPrice(c.rules, Buy, tick);
    QuoteIsAt(c, w);
    ExecutedIff(c.rules, tick, BuySignal(c.rules, w.date, tick, quantity, price, Fee(c.rules, price, quantity)));
  }

  lemma JustifiedStays(c: Course, deals: seq<Deal>, deal: Deal, i: nat)
    requires i < |deals|
    ensures Justified(c, deals + [deal], i) <==> Justified(c, deals, i)
  {
    assert (deals + [deal])[i] == deals[i] && (i > 0 ==> (deals + [deal])[i - 1] == deals[i - 1]);
  }

  lemma DoneStays(c: Course, deals: seq<Deal>, deal: Deal, i: nat, now: When, later: When)
    requires i < |deals| && Done(c, deals, i, now) && (now == later || Precedes(now, later))
    ensures Done(c, deals + [deal], i, later)
  {
    JustifiedStays(c, deals, deal, i);
    assert (deals + [deal])[i] == deals[i];
  }

  lemma DealsStayDone(c: Course, deals: seq<Deal>, now: When, later: When)
    requires AllDone(c, deals, now) && forall w: When :: Precedes(w, now) ==> Precedes(w, later)
    ensures AllDone(c, deals, later)
  {
    forall i | 0 <= i < |deals| ensures Done(c, deals, i, later) {
      assert Done(c, deals, i, now);
    }
  }

  lemma DealsStayJustified(c: Course, v: View, deal: Deal, now: When, later: When)
    requires AllDone(c, v.deals, now) && (now == later || Precedes(now, later))
    requires Done(c, v.deals + [deal], |v.deals|, later)
    ensures AllDone(c, v.deals + [deal], later)
  {
    var deals := v.deals + [deal];
    forall i | 0 <= i < |deals| ensures Done(c, deals, i, later) {
      if i < |v.deals| {
        DoneStays(c, v.deals, deal, i, now, later);
      }
    }
  }

  /** Selling the position that is followed, for a cause. */
  lemma SaleFollows(c: Course, v: View, now: When, w: When, later: When, high: real, note: Note)
    requires Followed(c, v, now) && v.position.Position? && (now == later || Precedes(now, later)) && Precedes(w, later)
    requires Quote(c, w).Some? && w.date in c.dates && w.time < END_OF_DAY
    requires
      var b := v.deals[|v.deals| - 1].signal;
      var x := SoldDeal(c.rules, v.position.(high := high), w.date, Quote(c, w).value, note).signal;
      IsHigh(c, high, b.price, Moment(b), Next(w)) && KeptUntil(c, b, w) && Caused(c, b, x, high)
    ensures
      var position := v.position.(high := high);
      Followed(c, SellView(c.rules, View(position, v.deals), w.date, Quote(c, w).value, note), later)
  {
    assert Done(c, v.deals, |v.deals| - 1, now);
    var sold := SoldDeal(c.rules, v.position.(high := high), w.date, Quote(c, w).value, note);
    SaleIsOfQuote(c, w, v.position.(high := high), note);
    var deals := v.deals + [sold];
    assert deals[|v.deals| - 1] == v.deals[|v.deals| - 1] && deals[|v.deals|] == sold;
    assert Left(c, deals, |v.deals|);
    DealsStayJustified(c, v, sold, now, later);
  }

  lemma PurchaseFollows(c: Course, v: View, after: View, w: When, quantity: int)
    requires Followed(c, v, w) && Quote(c, w).Some? && w.date in c.dates && w.time < END_OF_DAY
    requires Buys(c, w) && BuysInto(c.rules, v, after, w.date, Quote(c, w).value, quantity)
    ensures Followed(c, after, Next(w))
  {
    assert v.deals != [] ==> Done(c, v.deals, |v.deals| - 1, w);
    PurchaseIsOfQuote(c, w, quantity);
    var deal := after.deals[|v.deals|];
    assert v.deals == [] || v.deals[|v.deals| - 1].Sold?;
    assert Entered(c, after.deals, |v.deals|);
    DealsStayJustified(c, v, deal, w, Next(w));
    BoughtNowHolds(c, deal.signal, w);
    assert after.position.high == deal.signal.price;
  }

  /** What was just bought is held at its price, with no quote since. */
  lemma BoughtNowHolds(c: Course, b: Signal, w: When)
    requires Moment(b) == w && b.quantity > 0
    ensures
      Holds(c, b, Position(b.quantity, CostPerShare(b), b.price, b.price, b.fee, b.date, b.time), Next(w))
  {
    assert forall x: When :: !(Precedes(w, x) && Precedes(x, Next(w)));
  }

  lemma HoldingFollows(c: Course, v: View, w: When, high: real)
    requires Followed(c, v, w) && v.position.Position? && w.time < END_OF_DAY
    requires
      var b := v.deals[|v.deals| - 1].signal;
      IsHigh(c, high, b.price, Moment(b), Next(w)) && Kept(c, b, high, w)
    ensures Followed(c, v.(position := v.position.(high := high)), Next(w))
  {
    DealsStayDone(c, v.deals, w, Next(w));
    var b := v.deals[|v.deals| - 1].signal;
    forall x | QuotedBetween(c, Moment(b), x, Next(w)) ensures KeptAt(c, b, x) {
      if x == w {
        forall other | IsHigh(c, other, b.price, Moment(b), Next(x)) ensures Kept(c, b, other, x) {
          HighIsUnique(c, high, other, b.price, Moment(b), Next(x));
        }
      } else {
        assert QuotedBetween(c, Moment(b), x, w);
      }
    }
  }

  /** Of a held symbol nothing is bought. */
  lemma HeldIsNotBought(c: Course, seen: map<Symbol, seq<real>>, w: When, v: View, after: View)
    requires Quote(c, w).Some? && v.position.Position?
    requires Turns(c.rules, c.m, seen, w.date, Quote(c, w).value, v, after)
    ensures
      var tick := Quote(c, w).value;
      var note := NoteFor(c.rules, c.m, RaisedView(v, tick).position, w.date, tick);
      after == SignalView(c.rules, StopView(c.rules, v, w.date, tick, note), w.date,
                          SignalAt(c.rules, c.m, seen, w.date, tick, note))
  {
    var tick := Quote(c, w).value;
    var note := NoteFor(c.rules, c.m, RaisedView(v, tick).position, w.date, tick);
    var intent := SignalAt(c.rules, c.m, seen, w.date, tick, note);
    if intent.Some? && intent.value.side == Buy {
      TriedMayBuy(c.rules, c.m, RaisedView(v, tick), after, w.date, tick);
    }
  }

  /** The quote of a held symbol: a stop, a sale on a signal, or the position is kept. */
  lemma HeldTurnFollows(c: Course, seen: map<Symbol, seq<real>>, w: When, v: View, after: View)
    requires SoundExits(c.rules) && Known(c, seen, w) && Quote(c, w).Some? && w.date in c.dates && w.time < END_OF_DAY
    requires Followed(c, v, w) && v.position.Position?
    requires Turns(c.rules, c.m, seen, w.date, Quote(c, w).value, v, after)
    ensures Followed(c, after, Next(w))
  {
    assert Done(c, v.deals, |v.deals| - 1, w);
    HeldIsNotBought(c, seen, w, v, after);
    var tick, b := Quote(c, w).value, v.deals[|v.deals| - 1].signal;
    var high := Max(v.position.high, tick.price);
    var raised := v.position.(high := high);
    QuoteIsAt(c, w);
    HighRises(c, v.position.high, b.price, Moment(b), w);
    StopIsAtLevel(c, raised, w.date, tick);
    var note := NoteFor(c.rules, c.m, raised, w.date, tick);
    QuoteSignalsIff(c, seen, w, note);
    assert RaisedView(v, tick) == View(raised, v.deals);
    if note.Some? {
      SaleFollows(c, v, w, w, Next(w), high, note.value);
    } else if Sells(c, w) {
      SaleFollows(c, v, w, w, Next(w), high, NoNote);
    } else {
      HoldingFollows(c, v, w, high);
    }
  }

  lemma TurnFollows(c: Course, seen: map<Symbol, seq<real>>, w: When, v: View, after: View)
    requires SoundExits(c.rules) && Known(c, seen, w) && Quote(c, w).Some? && w.date in c.dates && w.time < END_OF_DAY
    requires Followed(c, v, w) && Turns(c.rules, c.m, seen, w.date, Quote(c, w).value, v, after)
    ensures Followed(c, after, Next(w))
  {
    if v.position.Position? {
      HeldTurnFollows(c, seen, w, v, after);
    } else {
      var tick := Quote(c, w).value;
      QuoteSignalsIff(c, seen, w, None);
      DealsStayDone(c, v.deals, w, Next(w));
      assert Followed(c, v, Next(w));
      if after != v {
        TriedMayBuy(c.rules, c.m, v, after, w.date, tick);
        var quantity :| BuysInto(c.rules, v, after, w.date, tick, quantity);
        PurchaseFollows(c, v, after, w, quantity);
      }
    }
  }

  lemma QuietFollows(c: Course, v: View, now: When, later: When)
    requires Followed(c, v, now) && Quiet(c, now, later)
    ensures Followed(c, v, later)
  {
    DealsStayDone(c, v.deals, now, later);
    if v.position.Position? {
      var b := v.deals[|v.deals| - 1].signal;
      forall w | QuotedBetween(c, Moment(b), w, later) || QuotedBetween(c, Moment(b), w, now)
        ensures QuotedBetween(c, Moment(b), w, later) && QuotedBetween(c, Moment(b), w, now) {}
    }
  }

  // ---------------------------------------------------------------- days and runs

  /** The last second before `t` at which the symbol is quoted. */
  function LastQuote(c: Course, date: Date, t: nat): (r: Option<Time>)
    ensures r.Some? ==> r.value < t && Quote(c, When(date, r.value)).Some?
    ensures forall u: Time :: (if r.Some? then r.value < u else true) && u < t ==> Quote(c, When(date, u)).None?
  {
    if t == 0 then None
    else if Quote(c, When(date, t - 1)).Some? then Some(t - 1)
    else LastQuote(c, date, t - 1)
  }

  function ClosingQuote(c: Course, date: Date, t: nat): Option<Tick> {
    var last := LastQuote(c, date, t);
    if last.Some? then Quote(c, When(date, last.value)) else None
  }

  /** Where a day stands at a second, as far as the symbol is concerned. */
  ghost predicate DayFollowed(c: Course, date: Date, t: nat, day: Day) {
    && KeysSound(day.account) && Followed(c, ViewOf(day.account, c.symbol), When(date, t))
    && ClosesWith(c.symbol, day.closing, ClosingQuote(c, date, t)) && Known(c, day.feed.seen, When(date, t))
  }

  lemma UnquotedIsQuiet(c: Course, w: When)
    requires Quote(c, w).None?
    ensures Quiet(c, w, Next(w))
  {
    forall x: When | Precedes(x, Next(w)) && !Precedes(x, w) ensures x == w {}
  }

  lemma SecondFollows(c: Course, seen: map<Symbol, seq<real>>, w: When, v: View, after: View)
    requires SoundExits(c.rules) && w.date in c.dates && w.time < END_OF_DAY && Known(c, seen, w)
    requires Followed(c, v, w)
    requires
      match Quote(c, w)
      case None => after == v
      case Some(tick) => Turns(c.rules, c.m, seen, w.date, tick, v, after)
    ensures Followed(c, after, Next(w))
  {
    if Quote(c, w).Some? {
      TurnFollows(c, seen, w, v, after);
    } else {
      UnquotedIsQuiet(c, w);
      QuietFollows(c, v, w, Next(w));
    }
  }

  lemma TradingFollows(c: Course, seen: map<Symbol, seq<real>>, w: When, a: Account)
    requires SoundExits(c.rules) && Ascends(c.m.universe) && c.symbol in c.m.universe
    requires w.date in c.dates && w.time < END_OF_DAY && Known(c, seen, w)
    requires KeysSound(a) && Followed(c, ViewOf(a, c.symbol), w)
    ensures
      var after := TradeMoment(c.rules, c.m, seen, w.date, a, TicksAt(c.m, w.date, w.time, c.m.universe));
      KeysSound(after) && Followed(c, ViewOf(after, c.symbol), Next(w))
  {
    MomentShows(c.rules, c.m, seen, w.date, w.time, a, c.symbol);
    var after := TradeMoment(c.rules, c.m, seen, w.date, a, TicksAt(c.m, w.date, w.time, c.m.universe));
    SecondFollows(c, seen, w, ViewOf(a, c.symbol), ViewOf(after, c.symbol));
  }

  lemma ClosingQuoteTurns(c: Course, date: Date, t: nat)
    ensures
      var tick := Quote(c, When(date, t));
      ClosingQuote(c, date, t + 1) == if tick.Some? then tick else ClosingQuote(c, date, t)
  {}

  lemma MomentFollows(c: Course, date: Date, t: Time, day: Day)
    requires SoundExits(c.rules) && Ascends(c.m.universe) && c.symbol in c.m.universe
    requires date in c.dates && t < END_OF_DAY && DayFollowed(c, date, t, day)
    ensures
      var after := Backtest.Moment(c.rules, c.m, date, day, TicksAt(c.m, date, t, c.m.universe));
      && KeysSound(after.account) && Followed(c, ViewOf(after.account, c.symbol), When(date, t + 1))
      && ClosesWith(c.symbol, after.closing, ClosingQuote(c, date, t + 1))
  {
    var after := TradeMoment(c.rules, c.m, day.feed.seen, date, day.account, TicksAt(c.m, date, t, c.m.universe));
    assert Backtest.Moment(c.rules, c.m, date, day, TicksAt(c.m, date, t, c.m.universe)).account == after;
    assert Next(When(date, t)) == When(date, t + 1);
    TradingFollows(c, day.feed.seen, When(date, t), day.account);
    ClosingShows(c.m, date, t, day.closing, c.symbol, ClosingQuote(c, date, t));
    ClosingQuoteTurns(c, date, t);
  }

  /** What has been recorded before the day. */
  ghost predicate KnownBefore(c: Course, date: Date, feed: Feed) {
    Get(feed.seen, c.symbol, []) == DatedMinutePrices(c.m, EarlierDates(c.dates, date), c.symbol)
  }

  lemma RecordsAreKnown(c: Course, date: Date, a: Account, feed: Feed, t: nat)
    requires Ascends(c.m.universe) && c.symbol in c.m.universe && KnownBefore(c, date, feed)
    ensures Known(c, DayUntil(c.rules, c.m, date, a, feed, t).feed.seen, When(date, t))
  {
    SeenIsEarlierMinutePrices(c.rules, c.m, date, a, feed, t, c.symbol);
  }

  lemma {:induction false} DayFollows(c: Course, date: Date, a: Account, feed: Feed, t: nat)
    requires SoundExits(c.rules) && Ascends(c.m.universe) && c.symbol in c.m.universe
    requires date in c.dates && t <= END_OF_DAY && KnownBefore(c, date, feed)
    requires KeysSound(a) && Followed(c, ViewOf(a, c.symbol), When(date, 0))
    ensures DayFollowed(c, date, t, DayUntil(c.rules, c.m, date, a, feed, t))
    decreases t
  {
    RecordsAreKnown(c, date, a, feed, t);
    if t > 0 {
      var u := t - 1;
      DayFollows(c, date, a, feed, u);
      DayTurn(c.rules, c.m, date, a, feed, u);
      MomentFollows(c, date, u, DayUntil(c.rules, c.m, date, a, feed, u));
    }
  }

  /** Liquidation sells what is held at the last quote of the day. */
  lemma EndOfDayFollows(c: Course, date: Date, v: View)
    requires SoundExits(c.rules) && date in c.dates && Followed(c, v, When(date, END_OF_DAY))
    ensures Followed(c, LiquidView(c.rules, v, date, ClosingQuote(c, date, END_OF_DAY)), When(date, END_OF_DAY))
  {
    var last := LastQuote(c, date, END_OF_DAY);
    if c.rules.closeAtEndOfDay && last.Some? && v.position.Position? {
      var w, end, b := When(date, last.value), When(date, END_OF_DAY), v.deals[|v.deals| - 1].signal;
      QuoteIsAt(c, w);
      PurchaseIsBeforeLastQuote(c, v, w);
      LastQuoteCountsAll(c, b, v.position.high, w);
      SaleFollows(c, v, end, w, end, v.position.high, EndOfDayNote);
      assert v.position.(high := v.position.high) == v.position && View(v.position, v.deals) == v;
    }
  }

  lemma NoneIsLater(c: Course, w: When, x: When)
    requires LastQuoteOfDay(c, w) && Quote(c, x).Some? && x.date == w.date && x.time < END_OF_DAY
    ensures x.time <= w.time
  {
    assert x == When(w.date, x.time);
  }

  lemma PurchaseIsBeforeLastQuote(c: Course, v: View, w: When)
    requires v.position.Position? && w.time < END_OF_DAY && Followed(c, v, When(w.date, END_OF_DAY))
    requires LastQuoteOfDay(c, w)
    ensures
      var b := v.deals[|v.deals| - 1].signal;
      Moment(b) == w || Precedes(Moment(b), w)
  {
    var b := v.deals[|v.deals| - 1].signal;
    assert Done(c, v.deals, |v.deals| - 1, When(w.date, END_OF_DAY));
    assert OfQuote(c, b);
    if Moment(b).date == w.date {
      NoneIsLater(c, w, Moment(b));
    }
  }

  lemma LastQuoteCountsAll(c: Course, b: Signal, high: real, w: When)
    requires w.date in c.dates && w.time < END_OF_DAY && Quote(c, w).Some? && LastQuoteOfDay(c, w)
    requires Moment(b) == w || Precedes(Moment(b), w)
    requires
      var end := When(w.date, END_OF_DAY);
      IsHigh(c, high, b.price, Moment(b), end) && KeptUntil(c, b, end)
    ensures IsHigh(c, high, b.price, Moment(b), Next(w)) && KeptUntil(c, b, w)
    ensures Precedes(Moment(b), w) ==> Kept(c, b, high, w)
  {
    var end := When(w.date, END_OF_DAY);
    forall x | QuotedBetween(c, Moment(b), x, end) ensures QuotedBetween(c, Moment(b), x, Next(w)) {
      if x.date == w.date {
        NoneIsLater(c, w, x);
      }
    }
    forall x | QuotedBetween(c, Moment(b), x, Next(w)) ensures QuotedBetween(c, Moment(b), x, end) {}
    if Precedes(Moment(b), w) {
      assert QuotedBetween(c, Moment(b), w, end);
      assert KeptAt(c, b, w);
    }
  }

  lemma DateFollows(c: Course, run: Run, date: Date)
    requires SoundExits(c.rules) && Ascends(c.m.universe) && c.symbol in c.m.universe
    requires date in c.dates && KnownBefore(c, date, run.feed)
    requires KeysSound(run.account) && Followed(c, ViewOf(run.account, c.symbol), When(date, 0))
    ensures
      var a := RunDate(c.rules, c.m, run, date).account;
      KeysSound(a) && Followed(c, ViewOf(a, c.symbol), When(date, END_OF_DAY))
  {
    var day := DayUntil(c.rules, c.m, date, run.account, run.feed, END_OF_DAY);
    DayFollows(c, date, run.account, run.feed, END_OF_DAY);
    KeysAreKept(c.rules, c.m, date);
    DayUntilKeeps(c.rules, c.m, date, run.account, run.feed, END_OF_DAY, KeysSound, _ => true);
    EndOfDayShows(c.rules, date, day, c.symbol, ClosingQuote(c, date, END_OF_DAY));
    EndOfDayFollows(c, date, ViewOf(day.account, c.symbol));
  }

  lemma FirstIsLeast(dates: seq<Date>, k: nat)
    requires Ascends(dates) && k < |dates|
    ensures k > 0 ==> dates[k] > 0
  {
    assert k > 0 ==> dates[0] < dates[k];
  }

  lemma EarlierDatesAre(dates: seq<Date>, k: nat)
    requires Ascends(dates) && k < |dates|
    ensures EarlierDates(dates, dates[k]) == dates[..k]
  {
    if dates[k] == 0 {
      FirstIsLeast(dates, k);
    } else {
      UpToAscends(dates, dates[k] - 1);
      forall x ensures x in dates[..k] <==> x in dates && x <= dates[k] - 1 {
        if x in dates {
          var i :| 0 <= i < |dates| && dates[i] == x;
          assert i < k ==> dates[..k][i] == x;
        }
      }
      SameMembers(UpTo(dates, dates[k] - 1), dates[..k]);
    }
  }

  /** Nothing happens between two dates of a run. */
  lemma BetweenDates(c: Course, k: nat)
    requires Ascends(c.dates) && 0 < k < |c.dates|
    ensures Quiet(c, When(c.dates[k - 1], END_OF_DAY), When(c.dates[k], 0))
  {
    forall w: When | w.date in c.dates && w.time < END_OF_DAY && Precedes(w, When(c.dates[k], 0))
      ensures Precedes(w, When(c.dates[k - 1], END_OF_DAY))
    {
      var i :| 0 <= i < |c.dates| && c.dates[i] == w.date;
      assert i < k;
    }
  }

  lemma {:induction false} RunFollows(c: Course, start: real, k: nat)
    requires SoundExits(c.rules) && Ascends(c.m.universe) && c.symbol in c.m.universe
    requires Ascends(c.dates) && k < |c.dates|
    ensures
      var run := RunDates(c.rules, c.m, start, c.dates[..k]);
      && KeysSound(run.account) && KnownBefore(c, c.dates[k], run.feed)
      && Followed(c, ViewOf(run.account, c.symbol), When(c.dates[k], 0))
  {
    SeenIsAllMinutePrices(c.rules, c.m, start, c.dates[..k], c.symbol);
    EarlierDatesAre(c.dates, k);
    if k > 0 {
      var j := k - 1;
      RunFollows(c, start, j);
      var run := RunDates(c.rules, c.m, start, c.dates[..j]);
      DateFollows(c, run, c.dates[j]);
      FoldTurn(Runner(c.rules, c.m), Run(Opened(start), Feed(map[], map[])), c.dates, j);
      BetweenDates(c, k);
      QuietFollows(c, ViewOf(RunDate(c.rules, c.m, run, c.dates[j]).account, c.symbol), When(c.dates[j], END_OF_DAY),
                   When(c.dates[k], 0));
    }
  }

  /** At every second of every date of a run, each deal so far is justified: a purchase follows a signal to buy; a sale
      noted as a trailing stop is at or below the line of the highest quote held, one noted as a stop loss at or below
      the limit below the average cost, every other sale is signalled or the liquidation at the last quote of the day;
      and at every quote between purchase and sale the position was rightly kept. What is open was rightly kept, too. */
  lemma {:induction false} EveryDealIsJustified(c: Course, start: real, k: nat, t: nat)
    requires SoundExits(c.rules) && Ascends(c.m.universe) && c.symbol in c.m.universe
    requires Ascends(c.dates) && k < |c.dates| && t <= END_OF_DAY
    ensures
      var run := RunDates(c.rules, c.m, start, c.dates[..k]);
      var a := DayUntil(c.rules, c.m, c.dates[k], run.account, run.feed, t).account;
      && Followed(c, ViewOf(run.account, c.symbol), When(c.dates[k], 0))
      && Followed(c, ViewOf(a, c.symbol), When(c.dates[k], t))
  {
    RunFollows(c, start, k);
    var run := RunDates(c.rules, c.m, start, c.dates[..k]);
    DayFollows(c, c.dates[k], run.account, run.feed, t);
  }

  /** The same holds at the end of a run. */
  lemma EveryDealOfRunIsJustified(c: Course, start: real)
    requires SoundExits(c.rules) && Ascends(c.m.universe) && c.symbol in c.m.universe
    requires Ascends(c.dates) && c.dates != []
    ensures
      var last := c.dates[|c.dates| - 1];
      Followed(c, ViewOf(RunDates(c.rules, c.m, start, c.dates).account, c.symbol), When(last, END_OF_DAY))
  {
    var k := |c.dates| - 1;
    RunFollows(c, start, k);
    var run := RunDates(c.rules, c.m, start, c.dates[..k]);
    DateFollows(c, run, c.dates[k]);
  }

  // ---------------------------------------------------------------- the latest prices

  /** The price of the latest quote of the symbol on some dates. */
  function LatestPrice(c: Course, dates: seq<Date>): Option<real> {
    if dates == [] then None
    else
      var tick := ClosingQuote(c, dates[|dates| - 1], END_OF_DAY);
      if tick.Some? then Some(tick.value.price) else LatestPrice(c, dates[..|dates| - 1])
  }

  ghost predicate Latest(s: Symbol, feed: Feed, price: Option<real>) {
    if price.Some? then s in feed.last && feed.last[s] == price.value else s !in feed.last
  }

  function After(tick: Option<Tick>, before: Option<real>): Option<real> {
    if tick.Some? then Some(tick.value.price) else before
  }

  lemma {:induction false} MomentRecordsPrice(c: Course, date: Date, t: Time, feed: Feed, before: Option<real>)
    requires Ascends(c.m.universe) && c.symbol in c.m.universe && Latest(c.symbol, feed, before)
    ensures Latest(c.symbol, Fold(Recorder(), feed, TicksAt(c.m, date, t, c.m.universe)),
                   After(Quote(c, When(date, t)), before))
  {
    var tick := Quote(c, When(date, t));
    OneTick(c.m, date, t, c.m.universe, c.symbol);
    PriceIsRecordedOnce(c.symbol, feed, TicksAt(c.m, date, t, c.m.universe), before, tick);
  }

  lemma {:induction false} PriceIsRecordedOnce(s: Symbol, feed: Feed, ticks: seq<Tick>, before: Option<real>,
                                               tick: Option<Tick>)
    requires Latest(s, feed, before) && Filter(ticks, TickOf(s)) == AsSeq(tick)
    requires tick.Some? ==> tick.value.symbol == s
    ensures Latest(s, Fold(Recorder(), feed, ticks), After(tick, before))
  {
    var P, R := (f: Feed) => Latest(s, f, before), (f: Feed) => Latest(s, f, After(tick, before));
    forall f: Feed, x: Tick | !TickOf(s)(x)
      ensures P(f) ==> P(Recorder()(f, x))
      ensures R(f) ==> R(Recorder()(f, x))
    {
      OtherPriceKeeps(s, f, before, x);
      OtherPriceKeeps(s, f, After(tick, before), x);
    }
    FoldOnce(Recorder(), feed, ticks, TickOf(s), tick, P, R);
  }

  lemma OtherPriceKeeps(s: Symbol, feed: Feed, price: Option<real>, x: Tick)
    requires x.symbol != s
    ensures Latest(s, feed, price) ==> Latest(s, Record(feed, x), price)
  {}

  lemma {:induction false} DayRecordsPrices(c: Course, date: Date, a: Account, feed: Feed, t: nat, before: Option<real>)
    requires Ascends(c.m.universe) && c.symbol in c.m.universe && Latest(c.symbol, feed, before)
    ensures Latest(c.symbol, DayUntil(c.rules, c.m, date, a, feed, t).feed, After(ClosingQuote(c, date, t), before))
    decreases t
  {
    if t > 0 {
      var u := t - 1;
      DayRecordsPrices(c, date, a, feed, u, before);
      DayTurn(c.rules, c.m, date, a, feed, u);
      MomentRecordsPrice(c, date, u, DayUntil(c.rules, c.m, date, a, feed, u).feed,
                         After(ClosingQuote(c, date, u), before));
      ClosingQuoteTurns(c, date, u);
    }
  }

  /** The price at which a run values a symbol is that of its latest quote on the dates of the run. */
  lemma {:induction false} LatestPriceIsRecorded(c: Course, start: real, dates: seq<Date>)
    requires Ascends(c.m.universe) && c.symbol in c.m.universe
    ensures Latest(c.symbol, RunDates(c.rules, c.m, start, dates).feed, LatestPrice(c, dates))
  {
    if dates != [] {
      var n := |dates| - 1;
      LatestPriceIsRecorded(c, start, dates[..n]);
      var run := RunDates(c.rules, c.m, start, dates[..n]);
      DayRecordsPrices(c, dates[n], run.account, run.feed, END_OF_DAY, LatestPrice(c, dates[..n]));
    }
  }
}
