/** Observation of a held position at checkpoints (src/application/shadow_position_tracker.py). */
module ShadowTracker {
  import opened Common

  // ---------------------------------------------------------------- the session clock

  /** Local time in microseconds since the start of day 0. */
  type Moment = nat

  const MINUTE: nat := 60_000_000
  const DAY: nat := 1_440 * MINUTE
  const MORNING_START: nat := 540 * MINUTE
  const MORNING_END: nat := 690 * MINUTE
  const AFTERNOON_START: nat := 750 * MINUTE
  const LAST_OBSERVATION: nat := 920 * MINUTE

  function DayOf(t: Moment): nat { t / DAY }

  function TimeOf(t: Moment): nat { t % DAY }

  function Earlier(a: nat, b: nat): nat {
    if b < a then b else a
  }

  function Later(a: nat, b: nat): nat {
    if b > a then b else a
  }

  function Overlap(start: Moment, end: Moment, from: Moment, to: Moment): nat {
    if Earlier(end, to) > Later(start, from) then Earlier(end, to) - Later(start, from) else 0
  }

  /** Open time between two moments, on the day of the first. */
  function TradingTime(start: Moment, end: Moment): nat {
    var day := DayOf(start) * DAY;
    if end <= start then 0
    else Overlap(start, end, day + MORNING_START, day + MORNING_END) +
         Overlap(start, end, day + AFTERNOON_START, day + LAST_OBSERVATION)
  }

  function Minutes(start: Moment, end: Moment): nat {
    TradingTime(start, end) / MINUTE
  }

  method ElapsedTradingMinutes(start: Moment, end: Moment) returns (minutes: nat)
    ensures minutes == Minutes(start, end)
  {
    if end <= start {
      return 0;
    }
    var day := DayOf(start) * DAY;
    var segments := [(day + MORNING_START, day + MORNING_END), (day + AFTERNOON_START, day + LAST_OBSERVATION)];
    var total := 0;
    for k := 0 to |segments|
      invariant total == (if k > 0 then Overlap(start, end, segments[0].0, segments[0].1) else 0)
                       + (if k > 1 then Overlap(start, end, segments[1].0, segments[1].1) else 0)
    {
      var left := Later(start, segments[k].0);
      var right := Earlier(end, segments[k].1);
      if right > left {
        total := total + (right - left);
      }
    }
    minutes := total / MINUTE;
  }

  /** The part of a session that has passed at `t`. */
  function Passed(t: Moment, from: Moment, to: Moment): nat
    requires from <= to
  {
    if t <= from then 0 else Earlier(t, to) - from
  }

  /** What a clock shows at `t` that runs only in the sessions of the given day. */
  function SessionClock(day: nat, t: Moment): nat {
    Passed(t, day * DAY + MORNING_START, day * DAY + MORNING_END) +
    Passed(t, day * DAY + AFTERNOON_START, day * DAY + LAST_OBSERVATION)
  }

  /** Elapsed time is the difference of two readings of the session clock. */
  lemma TradingTimeIsClockDifference(start: Moment, end: Moment)
    requires start <= end
    ensures SessionClock(DayOf(start), start) + TradingTime(start, end) == SessionClock(DayOf(start), end)
  {}

  /** It never exceeds the 320 minutes of a day, grows with the end, and adds up within a day; the
      whole minutes lose at most one in the addition. */
  lemma ElapsedTimeLaws(start: Moment, middle: Moment, end: Moment)
    requires start <= middle <= end
    ensures Minutes(start, middle) <= Minutes(start, end) <= 320
    ensures DayOf(middle) == DayOf(start) ==>
      && TradingTime(start, end) == TradingTime(start, middle) + TradingTime(middle, end)
      && Minutes(start, middle) + Minutes(middle, end) <= Minutes(start, end) <= Minutes(start, middle)
           + Minutes(middle, end) + 1
  {
    TradingTimeIsClockDifference(start, middle);
    TradingTimeIsClockDifference(start, end);
    TradingTimeIsClockDifference(middle, end);
  }

  // ---------------------------------------------------------------- references

  /** A price as the caller supplies it. `Garbled` is not a finite number. */
  datatype Quote = Missing | Garbled | Price(value: real)

  function Usable(q: Quote): Option<real> {
    if q.Price? && q.value > 0.0 then Some(q.value) else None
  }

  function ResolveReference(atr: Quote, previousClose: Quote): (r: Option<real>)
    ensures r.Some? ==> r.value > 0.0
    ensures r.Some? <==> Usable(atr).Some? || Usable(previousClose).Some?
  {
    if Usable(atr).Some? then Usable(atr)
    else if Usable(previousClose).Some? then Some(previousClose.value * 0.005)
    else None
  }

  // ---------------------------------------------------------------- the tracked position

  type Flag = string

  const HISTORY_MISSING: Flag := "history_missing_after_restart"
  const REFERENCE_UNAVAILABLE: Flag := "reference_unavailable"
  const PRICE_MISSING: Flag := "price_missing"
  const PRICE_INVALID: Flag := "price_zero_or_invalid"
  const OBSERVED_LATE: Flag := "checkpoint_observed_late"
  const FEW_OBSERVATIONS: Flag := "few_observations"
  const PRICE_UNAVAILABLE: Flag := "checkpoint_price_unavailable"
  const SETTLEMENT_INVALID: Flag := "settlement_price_zero_or_invalid"

  const CHECKPOINTS: seq<nat> := [15, 30, 45, 60]
  const MINIMUM_OBSERVATIONS: nat := 5

  datatype Blocked = Blocked(count: nat, firstAt: Moment, lastAt: Moment)

  datatype Row = Row(checkpoint: nat, observedAt: Moment, elapsed: nat, price: Option<real>,
                     highest: Option<real>, lowest: Option<real>, count: nat, rangeRatio: Option<real>,
                     flags: set<Flag>, blocked: map<Symbol, Blocked>)

  datatype Tracker = Tracker(
    buyAt: Moment, buyPrice: real, historyIncomplete: bool, reference: Option<real>,
    highest: Option<real>, lowest: Option<real>, count: nat, completed: set<nat>, quality: set<Flag>,
    blocked: map<Symbol, Blocked>, settled: nat)

  /** The flags that stand for as long as their cause does. */
  function Standing(p: Tracker): set<Flag> {
    (if p.historyIncomplete then {HISTORY_MISSING} else {}) +
    (if p.reference.None? then {REFERENCE_UNAVAILABLE} else {})
  }

  function Fresh(buyAt: Moment, buyPrice: real, reference: Option<real>, historyIncomplete: bool, count: nat): Tracker {
    var known := if historyIncomplete then None else Some(buyPrice);
    var blank := Tracker(buyAt, buyPrice, historyIncomplete, reference, known, known,
                         if historyIncomplete || count > 1 then count else 1, {}, {}, map[], 0);
    blank.(quality := Standing(blank))
  }

  /** A position starts with its price as both extremes and one observation, or, without its history, with neither; the
      flags stand for what is missing, and nothing has been completed, blocked or settled. */
  lemma FreshPosition(buyAt: Moment, buyPrice: real, reference: Option<real>, historyIncomplete: bool, count: nat)
    ensures
      var p := Fresh(buyAt, buyPrice, reference, historyIncomplete, count);
      && p.buyAt == buyAt && p.buyPrice == buyPrice && p.reference == reference
      && p.historyIncomplete == historyIncomplete
      && p.highest == p.lowest == (if historyIncomplete then None else Some(buyPrice))
      && p.count >= count && (p.count > count <==> !historyIncomplete && count == 0) && p.count <= count + 1
      && (HISTORY_MISSING in p.quality <==> historyIncomplete)
      && (REFERENCE_UNAVAILABLE in p.quality <==> reference.None?)
      && (forall f :: f in p.quality ==> f in {HISTORY_MISSING, REFERENCE_UNAVAILABLE})
      && p.completed == {} && p.blocked == map[] && p.settled == 0
  {}

  /** The two extremes are known together, and exactly when the whole history is. */
  ghost predicate Sound(p: Tracker) {
    && (p.historyIncomplete <==> p.highest.None?) && (p.historyIncomplete <==> p.lowest.None?)
    && (p.highest.Some? ==> p.lowest.value <= p.highest.value)
    && (p.reference.Some? ==> p.reference.value > 0.0)
  }

  datatype Event =
    | Observation(at: Moment, quote: Quote, quality: Flag)
    | Block(symbol: Symbol, at: Moment)
    | Resolve(atr: Quote, previousClose: Quote)
    | Note(flag: Flag)
    | Settlement(quote: Quote, quantity: int)

  /** The flags of a quote and of a quality text, of which the empty one is none. */
  function Noticed(quote: Quote, quality: Flag): set<Flag> {
    (if quality != "" then {quality} else {}) +
    (if quote.Missing? then {PRICE_MISSING} else if Usable(quote).None? then {PRICE_INVALID} else {})
  }

  /** The flags that an event raises. */
  function Raises(e: Event): set<Flag> {
    match e
    case Observation(_, quote, quality) => Noticed(quote, quality)
    case Note(flag) => {flag}
    case Settlement(quote, _) => if Usable(quote).None? then {SETTLEMENT_INVALID} else {}
    case _ => {}
  }

  /** An observation raises its quality text, if there is one, and a flag for a price that is missing or not positive; a
      settlement raises one for a price that is not positive; a note raises its own. */
  lemma RaisesIff(e: Event, f: Flag)
    ensures f in Raises(e) <==>
      match e
      case Observation(_, quote, quality) =>
        || (quality != "" && f == quality) || (quote == Missing && f == "price_missing")
        || (quote != Missing && !(quote.Price? && quote.value > 0.0) && f == "price_zero_or_invalid")
      case Note(flag) => f == flag
      case Settlement(quote, _) =>
        !(quote.Price? && quote.value > 0.0) && f == "settlement_price_zero_or_invalid"
      case _ => false
  {}

  /** A price taken into the extremes and the count. */
  function Seen(p: Tracker, price: Option<real>): Tracker {
    if price.None? then p
    else if p.historyIncomplete || p.highest.None? || p.lowest.None? then p.(count := p.count + 1)
    else p.(count := p.count + 1,
            highest := Some(Max(p.highest.value, price.value)), lowest := Some(Min(p.lowest.value, price.value)))
  }

  /** The checkpoints not completed and passed, in order. */
  function Due(checkpoints: seq<nat>, completed: set<nat>, elapsed: nat): seq<nat> {
    if checkpoints == [] then []
    else
      var last := checkpoints[|checkpoints| - 1];
      Due(checkpoints[..|checkpoints| - 1], completed, elapsed) +
      (if last !in completed && elapsed >= last then [last] else [])
  }

  function RangeRatio(p: Tracker): Option<real> {
    if !p.historyIncomplete && p.highest.Some? && p.lowest.Some? && p.reference.Some? && p.reference.value != 0.0
    then Some((p.highest.value - p.lowest.value) / p.reference.value)
    else None
  }

  /** The flags that describe the observation itself. */
  function Conditions(p: Tracker, elapsed: nat, price: Option<real>, checkpoint: nat): set<Flag> {
    (if elapsed > checkpoint then {OBSERVED_LATE} else {}) +
    (if p.count < MINIMUM_OBSERVATIONS then {FEW_OBSERVATIONS} else {}) +
    (if price.None? then {PRICE_UNAVAILABLE} else {})
  }

  function BlockedUntil(blocked: map<Symbol, Blocked>, at: Moment): map<Symbol, Blocked> {
    map s | s in blocked && blocked[s].lastAt <= at :: blocked[s]
  }

  function RowAt(p: Tracker, at: Moment, elapsed: nat, price: Option<real>, quality: set<Flag>, checkpoint: nat): Row {
    Row(checkpoint, at, elapsed, price, p.highest, p.lowest, p.count, RangeRatio(p),
        quality + Conditions(p, elapsed, price, checkpoint), BlockedUntil(p.blocked, at))
  }

  /** The first row carries the flags raised so far, the others only the standing ones. */
  function Rows(p: Tracker, at: Moment, elapsed: nat, price: Option<real>, due: seq<nat>): (rows: seq<Row>)
    ensures |rows| == |due|
  {
    if due == [] then []
    else Rows(p, at, elapsed, price, due[..|due| - 1]) +
         [RowAt(p, at, elapsed, price, if |due| == 1 then p.quality else Standing(p), due[|due| - 1])]
  }

  function DueAt(p: Tracker, at: Moment): seq<nat> {
    if TimeOf(at) >= LAST_OBSERVATION then [] else Due(CHECKPOINTS, p.completed, Minutes(p.buyAt, at))
  }

  function Emit(p: Tracker, due: seq<nat>): Tracker {
    if due == [] then p
    else p.(completed := p.completed + (set c | c in due), quality := Standing(p))
  }

  /** The position after an event, and the rows it emits. */
  datatype Outcome = Outcome(position: Tracker, rows: seq<Row>)

  function Noted(p: Tracker, quote: Quote, text: Flag): Tracker {
    Seen(p.(quality := p.quality + Noticed(quote, text)), Usable(quote))
  }

  function Reported(p: Tracker, at: Moment, price: Option<real>): Outcome {
    Outcome(Emit(p, DueAt(p, at)), Rows(p, at, Minutes(p.buyAt, at), price, DueAt(p, at)))
  }

  function Step(p: Tracker, e: Event): Outcome {
    match e
    case Observation(at, quote, text) => Reported(Noted(p, quote, text), at, Usable(quote))
    case Block(s, at) =>
      if at < p.buyAt then Outcome(p, [])
      else
        var item := if s in p.blocked then p.blocked[s].(count := p.blocked[s].count + 1, lastAt := at)
          else Blocked(1, at, at);
        Outcome(p.(blocked := p.blocked[s := item]), [])
    case Resolve(atr, previousClose) =>
      if p.reference.Some? then Outcome(p, [])
      else
        var reference := ResolveReference(atr, previousClose);
        Outcome(p.(reference := reference, quality := if reference.Some? then p.quality - {REFERENCE_UNAVAILABLE}
                   else p.quality), [])
    case Note(_) => Outcome(p.(quality := p.quality + Raises(e)), [])
    case Settlement(_, quantity) =>
      Outcome(p.(quality := p.quality + Raises(e), settled := p.settled + (if quantity > 0 then quantity else 0)), [])
  }

  function Stepper(): (Tracker, Event) -> Outcome {
    (p: Tracker, e: Event) => Step(p, e)
  }

  /** A row and the number of the event that emitted it. */
  datatype Entry = Entry(event: nat, row: Row)

  function Numbered(event: nat, rows: seq<Row>): seq<Entry> {
    seq(|rows|, k requires 0 <= k < |rows| => Entry(event, rows[k]))
  }

  datatype Track = Track(position: Tracker, entries: seq<Entry>)

  function RunWith(step: (Tracker, Event) -> Outcome, start: Tracker, events: seq<Event>): Track {
    if events == [] then Track(start, [])
    else
      var n := |events| - 1;
      var before := RunWith(step, start, events[..n]);
      var outcome := step(before.position, events[n]);
      Track(outcome.position, before.entries + Numbered(n, outcome.rows))
  }

  /** A run of events from a starting position. */
  function Run(start: Tracker, events: seq<Event>): Track {
    RunWith(Stepper(), start, events)
  }

  lemma RunTurn(start: Tracker, events: seq<Event>)
    requires events != []
    ensures
      var n := |events| - 1;
      var before := Run(start, events[..n]);
      var outcome := Step(before.position, events[n]);
      Run(start, events) == Track(outcome.position, before.entries + Numbered(n, outcome.rows))
  {}

  /** What holds of the start and is carried on by every step holds after the events. */
  lemma {:induction false} RunReaches(step: (Tracker, Event) -> Outcome, start: Tracker, events: seq<Event>,
                                      P: (seq<Event>, Tracker) -> bool)
    requires P([], start)
    requires forall before, p, e :: P(before, p) ==> P(before + [e], step(p, e).position)
    ensures P(events, RunWith(step, start, events).position)
  {
    if events != [] {
      var n := |events| - 1;
      RunReaches(step, start, events[..n], P);
      assert events == events[..n] + [events[n]];
    }
  }

  lemma {:induction false} EntriesComeInOrder(step: (Tracker, Event) -> Outcome, start: Tracker, events: seq<Event>,
                                              i: nat, j: nat)
    requires i <= j < |RunWith(step, start, events).entries|
    ensures
      var entries := RunWith(step, start, events).entries;
      entries[i].event <= entries[j].event < |events|
  {
    var n := |events| - 1;
    var before := RunWith(step, start, events[..n]).entries;
    if j < |before| {
      EntriesComeInOrder(step, start, events[..n], i, j);
    } else if i < |before| {
      EntriesComeInOrder(step, start, events[..n], i, i);
    }
  }

  /** Every entry holds a row of its event, taken from the position before it. */
  lemma {:induction false} EntryOrigin(step: (Tracker, Event) -> Outcome, start: Tracker, events: seq<Event>, i: nat)
    returns (k: nat)
    requires i < |RunWith(step, start, events).entries|
    ensures
      var entry := RunWith(step, start, events).entries[i];
      && entry.event < |events|
      && var outcome := step(RunWith(step, start, events[..entry.event]).position, events[entry.event]);
         && k < |outcome.rows| && outcome.rows[k] == entry.row
         && outcome.position == RunWith(step, start, events[..entry.event + 1]).position
  {
    var n := |events| - 1;
    var before := RunWith(step, start, events[..n]);
    if i < |before.entries| {
      k := EntryOrigin(step, start, events[..n], i);
      var e := before.entries[i].event;
      assert events[..n][..e] == events[..e] && events[..n][..e + 1] == events[..e + 1];
    } else {
      assert events[..n + 1] == events;
      k := i - |before.entries|;
    }
  }

  // ---------------------------------------------------------------- checkpoints

  lemma {:induction false} DueIsExact(checkpoints: seq<nat>, completed: set<nat>, elapsed: nat)
    ensures forall c :: c in Due(checkpoints, completed, elapsed) <==>
      c in checkpoints && c !in completed && elapsed >= c
  {
    if checkpoints != [] {
      var last := checkpoints[|checkpoints| - 1];
      DueIsExact(checkpoints[..|checkpoints| - 1], completed, elapsed);
      assert forall c :: c in checkpoints <==> c in checkpoints[..|checkpoints| - 1] || c == last;
    }
  }

  ghost predicate Increasing(cs: seq<nat>) {
    forall i, j :: 0 <= i < j < |cs| ==> cs[i] < cs[j]
  }

  lemma {:induction false} DueIncreases(checkpoints: seq<nat>, completed: set<nat>, elapsed: nat)
    requires Increasing(checkpoints)
    ensures Increasing(Due(checkpoints, completed, elapsed))
  {
    if checkpoints != [] {
      DueIncreases(checkpoints[..|checkpoints| - 1], completed, elapsed);
      var rest := Due(checkpoints[..|checkpoints| - 1], completed, elapsed);
      DueIsExact(checkpoints[..|checkpoints| - 1], completed, elapsed);
      assert forall i :: 0 <= i < |rest| ==> rest[i] in rest;
    }
  }

  lemma {:induction false} RowsAreIndexed(p: Tracker, at: Moment, elapsed: nat, price: Option<real>, due: seq<nat>)
    ensures forall k :: 0 <= k < |due| ==>
      Rows(p, at, elapsed, price, due)[k] == RowAt(p, at, elapsed, price, if k == 0 then p.quality else Standing(p),
                                                   due[k])
  {
    if due != [] {
      RowsAreIndexed(p, at, elapsed, price, due[..|due| - 1]);
    }
  }

  /** An observation before 15:20 by which `c` minutes have passed. */
  predicate Passes(e: Event, buyAt: Moment, c: nat) {
    e.Observation? && TimeOf(e.at) < LAST_OBSERVATION && Minutes(buyAt, e.at) >= c
  }

  function Checkpoints(entries: seq<Entry>): seq<nat> {
    seq(|entries|, k requires 0 <= k < |entries| => entries[k].row.checkpoint)
  }

  /** The checkpoints that one event completes. */
  function Completing(p: Tracker, e: Event): seq<nat> {
    if e.Observation? then DueAt(p, e.at) else []
  }

  lemma CompletingIsExact(p: Tracker, e: Event)
    ensures Increasing(Completing(p, e))
    ensures forall c :: c in Completing(p, e) <==> c in CHECKPOINTS && c !in p.completed && Passes(e, p.buyAt, c)
  {
    if e.Observation? {
      DueIsExact(CHECKPOINTS, p.completed, Minutes(p.buyAt, e.at));
      DueIncreases(CHECKPOINTS, p.completed, Minutes(p.buyAt, e.at));
    }
  }

  lemma StepCompletes(p: Tracker, e: Event)
    ensures
      var Outcome(after, rows) := Step(p, e);
      && after.buyAt == p.buyAt && after.completed == p.completed + (set c | c in Completing(p, e))
      && |rows| == |Completing(p, e)| && (forall k :: 0 <= k < |rows| ==> rows[k].checkpoint == Completing(p, e)[k])
      && forall k :: 0 <= k < |rows| ==>
           e.Observation? && rows[k].observedAt == e.at && rows[k].elapsed == Minutes(p.buyAt, e.at)
  {
    if e.Observation? {
      var seen := Noted(p, e.quote, e.quality);
      var due := DueAt(seen, e.at);
      assert due == Completing(p, e);
      RowsAreIndexed(seen, e.at, Minutes(p.buyAt, e.at), Usable(e.quote), due);
    }
  }

  /** What has been completed so far, and that what has not lies beyond everything emitted. */
  ghost predicate CheckpointsSound(start: Tracker, events: seq<Event>, track: Track) {
    var emitted := Checkpoints(track.entries);
    && track.position.buyAt == start.buyAt
    && track.position.completed == start.completed + (set c | c in emitted)
    && Increasing(emitted)
    && (forall c :: c in emitted ==> c in CHECKPOINTS && c !in start.completed)
    && (forall c, d :: c in CHECKPOINTS && c !in track.position.completed && d in emitted ==> d < c)
    && (forall c :: c in CHECKPOINTS && c !in track.position.completed ==>
          forall k :: 0 <= k < |events| ==> !Passes(events[k], start.buyAt, c))
  }

  lemma EmittedExtend(entries: seq<Entry>, n: nat, rows: seq<Row>, cs: seq<nat>)
    requires |cs| == |rows| && forall k :: 0 <= k < |rows| ==> rows[k].checkpoint == cs[k]
    ensures Checkpoints(entries + Numbered(n, rows)) == Checkpoints(entries) + cs
  {}

  lemma {:induction false} CheckpointsStaySound(start: Tracker, events: seq<Event>)
    ensures CheckpointsSound(start, events, Run(start, events))
  {
    if events != [] {
      var n := |events| - 1;
      CheckpointsStaySound(start, events[..n]);
      var before := Run(start, events[..n]);
      RunTurn(start, events);
      StepCompletes(before.position, events[n]);
      EmittedExtend(before.entries, n, Step(before.position, events[n]).rows, Completing(before.position, events[n]));
      OneMoreEvent(start, events, before, Run(start, events));
    }
  }

  lemma IncreasingConcat(xs: seq<nat>, ys: seq<nat>)
    requires Increasing(xs) && Increasing(ys) && forall x, y :: x in xs && y in ys ==> x < y
    ensures Increasing(xs + ys)
  {
    assert forall i :: 0 <= i < |xs| ==> xs[i] in xs;
    assert forall i :: 0 <= i < |ys| ==> ys[i] in ys;
  }

  lemma OneMoreEvent(start: Tracker, events: seq<Event>, before: Track, after: Track)
    requires events != [] && CheckpointsSound(start, events[..|events| - 1], before)
    requires after.position.buyAt == start.buyAt
    requires
      var cs := Completing(before.position, events[|events| - 1]);
      && after.position.completed == before.position.completed + (set c | c in cs)
      && Checkpoints(after.entries) == Checkpoints(before.entries) + cs
    ensures CheckpointsSound(start, events, after)
  {
    var n := |events| - 1;
    CompletingIsExact(before.position, events[n]);
    var earlier, cs := Checkpoints(before.entries), Completing(before.position, events[n]);
    IncreasingConcat(earlier, cs);
    assert forall c :: c in earlier + cs <==> c in earlier || c in cs;
    forall c, k | c in CHECKPOINTS && c !in after.position.completed && 0 <= k < |events|
      ensures !Passes(events[k], start.buyAt, c)
    {
      if k < n {
        assert events[..n][k] == events[k];
      }
    }
  }

  /** Over any run, checkpoints are emitted in strictly increasing order, so each at most once, and a
      checkpoint that was open is emitted exactly when some observation before 15:20 has passed it. */
  lemma {:induction false} EachCheckpointOnce(start: Tracker, events: seq<Event>)
    ensures
      var emitted := Checkpoints(Run(start, events).entries);
      && Increasing(emitted)
      && forall c :: c in emitted <==>
           c in CHECKPOINTS && c !in start.completed && exists k ::
             0 <= k < |events| && Passes(events[k], start.buyAt, c)
  {
    CheckpointsStaySound(start, events);
    var emitted := Checkpoints(Run(start, events).entries);
    forall c | c in emitted ensures exists k :: 0 <= k < |events| && Passes(events[k], start.buyAt, c) {
      var i :| 0 <= i < |emitted| && emitted[i] == c;
      EntriesArePassed(start, events, i);
    }
  }

  /** Every row comes from an observation before 15:20 that has passed its checkpoint. */
  lemma EntriesArePassed(start: Tracker, events: seq<Event>, i: nat)
    requires i < |Run(start, events).entries|
    ensures
      var entry := Run(start, events).entries[i];
      && entry.event < |events|
      && Passes(events[entry.event], start.buyAt, entry.row.checkpoint)
      && entry.row.observedAt == events[entry.event].at
      && entry.row.elapsed == Minutes(start.buyAt, entry.row.observedAt) >= entry.row.checkpoint
  {
    var k := EntryOrigin(Stepper(), start, events, i);
    var e := Run(start, events).entries[i].event;
    CheckpointsStaySound(start, events[..e]);
    var p := Run(start, events[..e]).position;
    StepCompletes(p, events[e]);
    CompletingIsExact(p, events[e]);
    assert Completing(p, events[e])[k] in Completing(p, events[e]);
  }

  // ---------------------------------------------------------------- extremes

  /** The usable price of an observation. */
  function PriceOf(e: Event): Option<real> {
    if e.Observation? then Usable(e.quote) else None
  }

  /** The bought price or an observed one. */
  ghost predicate Occurs(price: real, buyPrice: real, events: seq<Event>) {
    price == buyPrice || exists k :: 0 <= k < |events| && PriceOf(events[k]) == Some(price)
  }

  ghost predicate IsHighest(price: real, buyPrice: real, events: seq<Event>) {
    && Occurs(price, buyPrice, events) && buyPrice <= price
    && forall k :: 0 <= k < |events| && PriceOf(events[k]).Some? ==> PriceOf(events[k]).value <= price
  }

  ghost predicate IsLowest(price: real, buyPrice: real, events: seq<Event>) {
    && Occurs(price, buyPrice, events) && price <= buyPrice
    && forall k :: 0 <= k < |events| && PriceOf(events[k]).Some? ==> price <= PriceOf(events[k]).value
  }

  lemma OccursLater(price: real, buyPrice: real, events: seq<Event>, e: Event)
    ensures Occurs(price, buyPrice, events) || PriceOf(e) == Some(price) ==> Occurs(price, buyPrice, events + [e])
  {
    var all := events + [e];
    assert all[|events|] == e;
    if price != buyPrice && Occurs(price, buyPrice, events) {
      var k :| 0 <= k < |events| && PriceOf(events[k]) == Some(price);
      assert all[k] == events[k];
    }
  }

  lemma ExtremesExtend(p: Tracker, e: Event, events: seq<Event>, after: Tracker)
    requires !p.historyIncomplete && p.highest.Some? && p.lowest.Some?
    requires IsHighest(p.highest.value, p.buyPrice, events) && IsLowest(p.lowest.value, p.buyPrice, events)
    requires after.highest == Seen(p, PriceOf(e)).highest && after.lowest == Seen(p, PriceOf(e)).lowest
    ensures after.highest.Some? && IsHighest(after.highest.value, p.buyPrice, events + [e])
    ensures after.lowest.Some? && IsLowest(after.lowest.value, p.buyPrice, events + [e])
  {
    OccursLater(after.highest.value, p.buyPrice, events, e);
    OccursLater(after.lowest.value, p.buyPrice, events, e);
  }

  function Observed(events: seq<Event>): nat {
    if events == [] then 0
    else Observed(events[..|events| - 1]) + (if PriceOf(events[|events| - 1]).Some? then 1 else 0)
  }

  lemma StepSees(p: Tracker, e: Event)
    ensures
      var Outcome(after, rows) := Step(p, e);
      var seen := Seen(p, PriceOf(e));
      && after.buyPrice == p.buyPrice && after.historyIncomplete == p.historyIncomplete
      && after.highest == seen.highest && after.lowest == seen.lowest && after.count == seen.count
  {}

  /** What a position shows of the events so far: the number of usable prices, and with a complete history the
      extremes of the bought price and the usable prices. */
  ghost predicate Exact(start: Tracker, events: seq<Event>, p: Tracker) {
    && p.count == start.count + Observed(events)
    && p.buyPrice == start.buyPrice && p.historyIncomplete == start.historyIncomplete
    && (p.highest.Some? <==> !start.historyIncomplete) && (p.lowest.Some? <==> !start.historyIncomplete)
    && (!start.historyIncomplete ==>
         IsHighest(p.highest.value, start.buyPrice, events) && IsLowest(p.lowest.value, start.buyPrice, events))
  }

  lemma ObservedTurn(events: seq<Event>, e: Event)
    ensures Observed(events + [e]) == Observed(events) + (if PriceOf(e).Some? then 1 else 0)
  {
    assert (events + [e])[..|events|] == events;
  }

  lemma StepStaysExact(start: Tracker, events: seq<Event>, p: Tracker, e: Event)
    requires Exact(start, events, p)
    ensures Exact(start, events + [e], Step(p, e).position)
  {
    ObservedTurn(events, e);
    StepSees(p, e);
    if !start.historyIncomplete {
      ExtremesExtend(p, e, events, Step(p, e).position);
    }
  }

  /** With a complete history the extremes are exactly those of the bought price and the usable
      prices so far; without it there are none. Every usable price is counted. */
  lemma {:induction false} ExtremesAreExact(start: Tracker, events: seq<Event>)
    requires Sound(start)
    requires !start.historyIncomplete ==> start.highest == start.lowest == Some(start.buyPrice)
    ensures Exact(start, events, Run(start, events).position)
  {
    var exact := (seen: seq<Event>, p: Tracker) => Exact(start, seen, p);
    forall seen: seq<Event>, p: Tracker, e: Event | exact(seen, p) ensures exact(seen + [e], Step(p, e).position) {
      StepStaysExact(start, seen, p, e);
    }
    RunReaches(Stepper(), start, events, exact);
  }

  // ---------------------------------------------------------------- rows

  /** What a row shows of the position right after its event: its extremes, and their distance in references. */
  ghost predicate ShowsState(row: Row, p: Tracker)
    requires Sound(p)
  {
    && row.highest == p.highest && row.lowest == p.lowest && row.count == p.count
    && (row.rangeRatio.Some? <==> !p.historyIncomplete && p.reference.Some?)
    && (row.rangeRatio.Some? ==> row.rangeRatio.value * p.reference.value == p.highest.value - p.lowest.value)
    && forall s :: if s in p.blocked && p.blocked[s].lastAt <= row.observedAt
         then s in row.blocked && row.blocked[s] == p.blocked[s] else s !in row.blocked
  }

  lemma RatioTimesReference(p: Tracker)
    requires Sound(p)
    ensures RangeRatio(p).Some? <==> !p.historyIncomplete && p.reference.Some?
    ensures RangeRatio(p).Some? ==> RangeRatio(p).value * p.reference.value == p.highest.value - p.lowest.value
  {
    if RangeRatio(p).Some? {
      QuotientTimes(p.highest.value - p.lowest.value, p.reference.value);
    }
  }

  lemma QuotientTimes(x: real, y: real)
    requires y > 0.0
    ensures x / y * y == x
  {}

  lemma RowsShowState(p: Tracker, e: Event, k: nat)
    requires k < |Step(p, e).rows|
    ensures
      var Outcome(after, rows) := Step(p, e);
      && rows[k].highest == after.highest && rows[k].lowest == after.lowest && rows[k].count == after.count
      && rows[k].rangeRatio == RangeRatio(after) && (Sound(after) ==> ShowsState(rows[k], after))
      && e.Observation? && rows[k].price == Usable(e.quote)
  {
    ReportedRowsShow(Noted(p, e.quote, e.quality), e.at, Usable(e.quote), k);
  }

  lemma ReportedRowsShow(p: Tracker, at: Moment, price: Option<real>, k: nat)
    requires k < |Reported(p, at, price).rows|
    ensures
      var Outcome(after, rows) := Reported(p, at, price);
      && rows[k].highest == after.highest && rows[k].lowest == after.lowest && rows[k].count == after.count
      && rows[k].rangeRatio == RangeRatio(after) && (Sound(after) ==> ShowsState(rows[k], after))
      && rows[k].price == price
  {
    var due := DueAt(p, at);
    RowsAreIndexed(p, at, Minutes(p.buyAt, at), price, due);
    RowShowsState(p, at, Minutes(p.buyAt, at), price, if k == 0 then p.quality else Standing(p), due, k);
  }

  lemma RowShowsState(p: Tracker, at: Moment, elapsed: nat, price: Option<real>, quality: set<Flag>, due: seq<nat>,
                      k: nat)
    requires k < |due|
    ensures
      var row, after := RowAt(p, at, elapsed, price, quality, due[k]), Emit(p, due);
      && row.highest == after.highest && row.lowest == after.lowest && row.count == after.count
      && row.rangeRatio == RangeRatio(after) && (Sound(after) ==> ShowsState(row, after))
  {
    if Sound(Emit(p, due)) {
      RatioTimesReference(Emit(p, due));
    }
  }

  /** Every row shows the extremes, the count, the range in references and the blocked candidates right after its
      event. */
  lemma RowsShowRunningState(start: Tracker, events: seq<Event>, i: nat)
    requires i < |Run(start, events).entries|
    ensures
      var entry := Run(start, events).entries[i];
      && entry.event < |events| && entry.row.price == PriceOf(events[entry.event])
      && var p := Run(start, events[..entry.event + 1]).position;
         && entry.row.highest == p.highest && entry.row.lowest == p.lowest && entry.row.count == p.count
         && (Sound(p) ==> ShowsState(entry.row, p))
  {
    var k := EntryOrigin(Stepper(), start, events, i);
    var e := Run(start, events).entries[i].event;
    RowsShowState(Run(start, events[..e]).position, events[e], k);
  }

  /** The reference that a resolution gives: the usable range, or half a percent of the usable previous close. */
  ghost predicate Gives(e: Event, reference: real) {
    && e.Resolve?
    && if e.atr.Price? && e.atr.value > 0.0 then reference == e.atr.value
       else e.previousClose.Price? && e.previousClose.value > 0.0 && reference == e.previousClose.value * 0.005
  }

  /** The reference is the one at the start, or else the first that a resolution has given. */
  ghost predicate IsReference(first: Option<real>, events: seq<Event>, reference: Option<real>) {
    if first.Some? then reference == first
    else if reference.None? then forall k, r :: 0 <= k < |events| ==> !Gives(events[k], r)
    else
      exists k :: 0 <= k < |events| && Gives(events[k], reference.value)
                  && forall j, r :: 0 <= j < k ==> !Gives(events[j], r)
  }

  lemma StepKeepsReference(first: Option<real>, events: seq<Event>, p: Tracker, e: Event)
    requires IsReference(first, events, p.reference)
    ensures IsReference(first, events + [e], Step(p, e).position.reference)
  {
    var all, after := events + [e], Step(p, e).position.reference;
    assert forall k :: 0 <= k < |events| ==> all[k] == events[k];
    if first.None? && p.reference.None? && after.Some? {
      assert Gives(all[|events|], after.value);
    }
  }

  lemma {:induction false} ReferenceIsFirst(start: Tracker, events: seq<Event>)
    ensures IsReference(start.reference, events, Run(start, events).position.reference)
  {
    var P := (seen: seq<Event>, p: Tracker) => IsReference(start.reference, seen, p.reference);
    forall seen: seq<Event>, p: Tracker, e: Event | P(seen, p) ensures P(seen + [e], Step(p, e).position) {
      StepKeepsReference(start.reference, seen, p, e);
    }
    RunReaches(Stepper(), start, events, P);
  }

  lemma {:induction false} SoundnessIsKept(start: Tracker, events: seq<Event>)
    requires Sound(start)
    ensures Sound(Run(start, events).position)
  {
    var P := (seen: seq<Event>, p: Tracker) => Sound(p);
    forall seen: seq<Event>, p: Tracker, e: Event | P(seen, p) ensures P(seen + [e], Step(p, e).position) {
      StepWidens(p, e);
    }
    RunReaches(Stepper(), start, events, P);
  }

  /** What a row reports of the events up to its own: with a complete history the highest and the lowest of the bought
      price and the usable prices and, once a reference is known, their distance in references; the number of usable
      prices; and the candidates blocked so far. */
  ghost predicate Reports(start: Tracker, events: seq<Event>, row: Row) {
    && row.count == start.count + Observed(events)
    && (row.highest.Some? <==> !start.historyIncomplete) && (row.lowest.Some? <==> !start.historyIncomplete)
    && (row.highest.Some? && row.lowest.Some? ==>
          IsHighest(row.highest.value, start.buyPrice, events) && IsLowest(row.lowest.value, start.buyPrice, events))
    && (exists reference :: IsReference(start.reference, events, reference)
          && (row.rangeRatio.Some? <==> !start.historyIncomplete && reference.Some?)
          && (row.rangeRatio.Some? ==>
                && row.highest.Some? && row.lowest.Some?
                && row.rangeRatio.value * reference.value == row.highest.value - row.lowest.value))
    && forall s ::
         var at := BlockMoments(start.buyAt, events, s);
         if at != [] && at[|at| - 1] <= row.observedAt
         then s in row.blocked && row.blocked[s] == Blocked(|at|, at[0], at[|at| - 1])
         else s !in row.blocked
  }

  /** At any time there is only one reference. */
  lemma ReferenceIsUnique(first: Option<real>, events: seq<Event>, reference: Option<real>, other: Option<real>)
    requires IsReference(first, events, reference) && IsReference(first, events, other)
    ensures reference == other
  {}

  /** Every row of a run reports the events up to its own, and the usable price of its own. */
  lemma {:induction false} RowsReportTheirEvents(start: Tracker, events: seq<Event>, i: nat)
    requires i < |Run(start, events).entries| && Sound(start) && start.blocked == map[]
    requires !start.historyIncomplete ==> start.highest == start.lowest == Some(start.buyPrice)
    ensures
      var entry := Run(start, events).entries[i];
      && entry.event < |events| && entry.row.price == PriceOf(events[entry.event])
      && Reports(start, events[..entry.event + 1], entry.row)
  {
    RowsShowRunningState(start, events, i);
    var entry := Run(start, events).entries[i];
    var seen := events[..entry.event + 1];
    SoundnessIsKept(start, seen);
    StateReports(start, seen, entry.row);
  }

  lemma {:induction false} StateReports(start: Tracker, events: seq<Event>, row: Row)
    requires Sound(start) && start.blocked == map[]
    requires Sound(Run(start, events).position) && ShowsState(row, Run(start, events).position)
    requires !start.historyIncomplete ==> start.highest == start.lowest == Some(start.buyPrice)
    ensures Reports(start, events, row)
  {
    var p := Run(start, events).position;
    ExtremesAreExact(start, events);
    ReferenceIsFirst(start, events);
    forall s ensures Counts(p.blocked, s, BlockMoments(start.buyAt, events, s)) {
      BlockedAreCounted(start, events, s);
    }
  }

  /** A known ratio stays known and does not fall. */
  ghost predicate NotBelow(a: Option<real>, b: Option<real>) {
    a.Some? ==> b.Some? && a.value <= b.value
  }

  ghost predicate NoNarrower(before: Tracker, after: Tracker) {
    NotBelow(RangeRatio(before), RangeRatio(after))
  }

  lemma QuotientKeepsOrder(a: real, b: real, c: real)
    requires a <= b && c > 0.0
    ensures a / c <= b / c
  {}

  lemma StepWidens(p: Tracker, e: Event)
    requires Sound(p)
    ensures Sound(Step(p, e).position) && NoNarrower(p, Step(p, e).position)
  {
    StepSees(p, e);
    var after := Step(p, e).position;
    if RangeRatio(p).Some? {
      QuotientKeepsOrder(p.highest.value - p.lowest.value, after.highest.value - after.lowest.value, p.reference.value);
    }
  }

  /** Every step keeps `ratio` from falling, and its rows show it. */
  ghost predicate Widening(step: (Tracker, Event) -> Outcome, ratio: Tracker -> Option<real>) {
    && (forall p, e :: Sound(p) ==> Sound(step(p, e).position) && NotBelow(ratio(p), ratio(step(p, e).position)))
    && forall p, e, k :: 0 <= k < |step(p, e).rows| ==> step(p, e).rows[k].rangeRatio == ratio(step(p, e).position)
  }

  lemma {:induction false} RatioIsKept(step: (Tracker, Event) -> Outcome, ratio: Tracker -> Option<real>,
                                       start: Tracker, events: seq<Event>, k: nat)
    requires Widening(step, ratio) && Sound(start) && k <= |events|
    ensures Sound(RunWith(step, start, events).position)
    ensures NotBelow(ratio(RunWith(step, start, events[..k]).position), ratio(RunWith(step, start, events).position))
  {
    if events == [] {
      assert events[..k] == events;
    } else {
      var n := |events| - 1;
      RatioIsKept(step, ratio, start, events[..n], if k < n then k else n);
      if k == |events| {
        assert events[..k] == events;
      } else {
        assert events[..n][..k] == events[..k];
      }
    }
  }

  lemma EntryShowsRatio(step: (Tracker, Event) -> Outcome, ratio: Tracker -> Option<real>, start: Tracker,
                        events: seq<Event>, i: nat)
    requires Widening(step, ratio) && i < |RunWith(step, start, events).entries|
    ensures
      var entry := RunWith(step, start, events).entries[i];
      && entry.event < |events|
      && entry.row.rangeRatio == ratio(RunWith(step, start, events[..entry.event + 1]).position)
  {
    var k := EntryOrigin(step, start, events, i);
  }

  lemma RatioIsKeptBetween(step: (Tracker, Event) -> Outcome, ratio: Tracker -> Option<real>, start: Tracker,
                           events: seq<Event>, k: nat, l: nat)
    requires Widening(step, ratio) && Sound(start) && k <= l <= |events|
    ensures NotBelow(ratio(RunWith(step, start, events[..k]).position),
                     ratio(RunWith(step, start, events[..l]).position))
  {
    assert events[..l][..k] == events[..k];
    RatioIsKept(step, ratio, start, events[..l], k);
  }

  lemma RatioNeverFallsWith(step: (Tracker, Event) -> Outcome, ratio: Tracker -> Option<real>, start: Tracker,
                            events: seq<Event>, entries: seq<Entry>, i: nat, j: nat)
    requires Widening(step, ratio) && Sound(start)
    requires entries == RunWith(step, start, events).entries && i < j < |entries|
    ensures NotBelow(entries[i].row.rangeRatio, entries[j].row.rangeRatio)
  {
    var first, second := entries[i], entries[j];
    EntriesComeInOrder(step, start, events, i, j);
    assert first.row.rangeRatio == ratio(RunWith(step, start, events[..first.event + 1]).position) by {
      EntryShowsRatio(step, ratio, start, events, i);
    }
    assert second.row.rangeRatio == ratio(RunWith(step, start, events[..second.event + 1]).position) by {
      EntryShowsRatio(step, ratio, start, events, j);
    }
    RatioIsKeptBetween(step, ratio, start, events, first.event + 1, second.event + 1);
  }

  /** The reported range ratio never falls from one row to a later one. */
  lemma {:induction false} RangeRatioNeverFalls(start: Tracker, events: seq<Event>, i: nat, j: nat)
    requires Sound(start) && i < j < |Run(start, events).entries|
    requires Run(start, events).entries[i].row.rangeRatio.Some?
    ensures
      var earlier, later := Run(start, events).entries[i].row, Run(start, events).entries[j].row;
      later.rangeRatio.Some? && earlier.rangeRatio.value <= later.rangeRatio.value
  {
    var step := Stepper();
    forall p, e | Sound(p)
      ensures Sound(step(p, e).position) && NotBelow(RangeRatio(p), RangeRatio(step(p, e).position)) {
      StepWidens(p, e);
    }
    forall p, e, k | 0 <= k < |step(p, e).rows|
      ensures step(p, e).rows[k].rangeRatio == RangeRatio(step(p, e).position) {
      RowsShowState(p, e, k);
    }
    RatioNeverFallsWith(step, RangeRatio, start, events, Run(start, events).entries, i, j);
  }

  // ---------------------------------------------------------------- flags

  predicate Passing(f: Flag) {
    f !in {HISTORY_MISSING, REFERENCE_UNAVAILABLE}
  }

  /** A flag that the row's own numbers give it. */
  predicate Describes(f: Flag, row: Row) {
    || (f == OBSERVED_LATE && row.elapsed > row.checkpoint) || (f == FEW_OBSERVATIONS && row.count < 5)
    || (f == PRICE_UNAVAILABLE && row.price.None?)
  }

  /** `f` was raised after event `from`, by event `to` at the latest. */
  ghost predicate RaisedBetween(events: seq<Event>, f: Flag, from: int, to: int) {
    exists k :: 0 <= k < |events| && from < k <= to && f in Raises(events[k])
  }

  function LastReport(entries: seq<Entry>): int {
    if entries == [] then -1 else entries[|entries| - 1].event
  }

  /** One step keeps a passing flag pending until a row reports it, which the first row does. */
  ghost predicate FlagStep(f: Flag, p: Tracker, e: Event, o: Outcome) {
    && (o.rows == [] ==> (f in o.position.quality <==> f in p.quality || f in Raises(e)))
    && (o.rows != [] ==> f !in o.position.quality)
    && forall k :: 0 <= k < |o.rows| ==>
         (f in o.rows[k].flags <==> Describes(f, o.rows[k]) || (k == 0 && (f in p.quality || f in Raises(e))))
  }

  lemma StepFlags(f: Flag, p: Tracker, e: Event)
    requires Passing(f)
    ensures FlagStep(f, p, e, Step(p, e))
  {
    if e.Observation? {
      var seen := Noted(p, e.quote, e.quality);
      assert f in seen.quality <==> f in p.quality || f in Raises(e);
      RowFlags(f, seen, e.at, Minutes(p.buyAt, e.at), Usable(e.quote), DueAt(seen, e.at));
    }
  }

  lemma RowFlags(f: Flag, p: Tracker, at: Moment, elapsed: nat, price: Option<real>, due: seq<nat>)
    requires Passing(f)
    ensures f in Emit(p, due).quality <==> due == [] && f in p.quality
    ensures forall k :: 0 <= k < |due| ==>
      var row := Rows(p, at, elapsed, price, due)[k];
      (f in row.flags <==> Describes(f, row) || (k == 0 && f in p.quality))
  {
    RowsAreIndexed(p, at, elapsed, price, due);
    assert f !in Standing(p);
  }

  ghost predicate StepsFlags(step: (Tracker, Event) -> Outcome, f: Flag) {
    forall p, e :: FlagStep(f, p, e, step(p, e))
  }

  /** A passing flag is pending exactly when it was raised since the last row. */
  lemma {:induction false} PendingSinceLastReport(step: (Tracker, Event) -> Outcome, start: Tracker, events: seq<Event>,
                                                  f: Flag)
    requires StepsFlags(step, f) && f !in start.quality
    ensures
      var track := RunWith(step, start, events);
      && LastReport(track.entries) < |events|
      && (f in track.position.quality <==> RaisedBetween(events, f, LastReport(track.entries), |events| - 1))
  {
    if events != [] {
      var n := |events| - 1;
      PendingSinceLastReport(step, start, events[..n], f);
      var before := RunWith(step, start, events[..n]);
      assert FlagStep(f, before.position, events[n], step(before.position, events[n]));
      if step(before.position, events[n]).rows == [] {
        assert RunWith(step, start, events).entries == before.entries;
        RaisedExtends(events, f, LastReport(before.entries));
      }
    }
  }

  lemma RaisedExtends(events: seq<Event>, f: Flag, from: int)
    requires events != [] && from < |events| - 1
    ensures
      var n := |events| - 1;
      RaisedBetween(events, f, from, n) <==> RaisedBetween(events[..n], f, from, n - 1) || f in Raises(events[n])
  {
    var n := |events| - 1;
    assert forall k :: 0 <= k < n ==> events[..n][k] == events[k];
    if f in Raises(events[n]) {
      assert from < n <= n;
    } else if RaisedBetween(events, f, from, n) {
      var k :| 0 <= k < |events| && from < k <= n && f in Raises(events[k]);
      assert k < n;
    }
  }

  lemma {:induction false} ReportedOnceWith(step: (Tracker, Event) -> Outcome, start: Tracker, events: seq<Event>,
                                            j: nat, f: Flag)
    requires StepsFlags(step, f) && f !in start.quality && j < |RunWith(step, start, events).entries|
    ensures
      var entries := RunWith(step, start, events).entries;
      && entries[j].event < |events|
      && (f in entries[j].row.flags <==>
            || Describes(f, entries[j].row)
            || RaisedBetween(events, f, LastReport(entries[..j]), entries[j].event))
  {
    var n := |events| - 1;
    var before, entries := RunWith(step, start, events[..n]), RunWith(step, start, events).entries;
    if j < |before.entries| {
      ReportedOnceWith(step, start, events[..n], j, f);
      assert entries[..j] == before.entries[..j];
      RaisedEarlier(events, f, LastReport(entries[..j]), entries[j].event);
    } else {
      PendingSinceLastReport(step, start, events[..n], f);
      assert FlagStep(f, before.position, events[n], step(before.position, events[n]));
      if j == |before.entries| {
        assert entries[..j] == before.entries;
        RaisedExtends(events, f, LastReport(before.entries));
      } else {
        assert entries[..j][j - 1].event == n;
      }
    }
  }

  /** A passing flag is reported in the first row after it is raised and in no other, unless it describes the row: row
      `j` carries it exactly when it does, or when some event after the previous row's, up to the row's own, has
      raised it. */
  lemma {:induction false} FlagsAreReportedOnce(start: Tracker, events: seq<Event>, j: nat, f: Flag)
    requires Passing(f) && f !in start.quality && j < |Run(start, events).entries|
    ensures
      var entries := Run(start, events).entries;
      f in entries[j].row.flags <==>
        || Describes(f, entries[j].row)
        || RaisedBetween(events, f, LastReport(entries[..j]), entries[j].event)
  {
    var step := Stepper();
    forall p, e ensures FlagStep(f, p, e, step(p, e)) {
      StepFlags(f, p, e);
    }
    ReportedOnceWith(step, start, events, j, f);
  }

  lemma RaisedEarlier(events: seq<Event>, f: Flag, from: int, to: int)
    requires events != [] && to < |events| - 1
    ensures RaisedBetween(events, f, from, to) <==> RaisedBetween(events[..|events| - 1], f, from, to)
  {
    var n := |events| - 1;
    assert forall k :: 0 <= k < n ==> events[..n][k] == events[k];
  }

  /** The standing flags are there exactly as long as their causes. */
  ghost predicate StandsExactly(p: Tracker, flags: set<Flag>) {
    && (HISTORY_MISSING in flags <==> p.historyIncomplete)
    && (REFERENCE_UNAVAILABLE in flags <==> p.reference.None?)
  }

  predicate NamesNone(e: Event) {
    HISTORY_MISSING !in Raises(e) && REFERENCE_UNAVAILABLE !in Raises(e)
  }

  lemma StepStands(p: Tracker, e: Event)
    requires StandsExactly(p, p.quality) && NamesNone(e)
    ensures
      var Outcome(after, rows) := Step(p, e);
      StandsExactly(after, after.quality) && forall k :: 0 <= k < |rows| ==> StandsExactly(after, rows[k].flags)
  {
    if e.Observation? {
      var seen := Noted(p, e.quote, e.quality);
      assert StandsExactly(seen, seen.quality);
      RowsStand(seen, e.at, Minutes(p.buyAt, e.at), Usable(e.quote), DueAt(seen, e.at));
    }
  }

  lemma RowsStand(p: Tracker, at: Moment, elapsed: nat, price: Option<real>, due: seq<nat>)
    requires StandsExactly(p, p.quality)
    ensures StandsExactly(p, Emit(p, due).quality)
    ensures forall k :: 0 <= k < |due| ==> StandsExactly(p, Rows(p, at, elapsed, price, due)[k].flags)
  {
    RowsAreIndexed(p, at, elapsed, price, due);
    StandingIsExact(p);
    forall k | 0 <= k < |due| ensures StandsExactly(p, Rows(p, at, elapsed, price, due)[k].flags) {
      RowStands(p, at, elapsed, price, if k == 0 then p.quality else Standing(p), due[k]);
    }
  }

  lemma RowStands(p: Tracker, at: Moment, elapsed: nat, price: Option<real>, quality: set<Flag>, checkpoint: nat)
    requires StandsExactly(p, quality)
    ensures StandsExactly(p, RowAt(p, at, elapsed, price, quality, checkpoint).flags)
  {}

  lemma StandingIsExact(p: Tracker)
    ensures StandsExactly(p, Standing(p))
  {}

  lemma {:induction false} PositionStands(start: Tracker, events: seq<Event>)
    requires StandsExactly(start, start.quality) && forall k :: 0 <= k < |events| ==> NamesNone(events[k])
    ensures
      var p := Run(start, events).position;
      StandsExactly(p, p.quality)
  {
    if events != [] {
      var n := |events| - 1;
      PositionStands(start, events[..n]);
      RunTurn(start, events);
      StepStands(Run(start, events[..n]).position, events[n]);
    }
  }

  /** Unless an event raises a flag of such a name itself, every row carries the flag of a missing history exactly when
      the history is incomplete, and that of a missing reference exactly when there is none yet. */
  lemma {:induction false} StandingFlagsAreExact(start: Tracker, events: seq<Event>, j: nat)
    requires StandsExactly(start, start.quality) && forall k :: 0 <= k < |events| ==> NamesNone(events[k])
    requires j < |Run(start, events).entries|
    ensures
      var entry := Run(start, events).entries[j];
      && entry.event < |events| && (HISTORY_MISSING in entry.row.flags <==> start.historyIncomplete)
      && exists reference :: IsReference(start.reference, events[..entry.event + 1], reference)
           && (REFERENCE_UNAVAILABLE in entry.row.flags <==> reference.None?)
  {
    var k := EntryOrigin(Stepper(), start, events, j);
    var entry := Run(start, events).entries[j];
    PositionStands(start, events[..entry.event]);
    StepStands(Run(start, events[..entry.event]).position, events[entry.event]);
    ReferenceIsFirst(start, events[..entry.event + 1]);
    HistoryStays(start, events[..entry.event + 1]);
  }

  lemma {:induction false} HistoryStays(start: Tracker, events: seq<Event>)
    ensures Run(start, events).position.historyIncomplete == start.historyIncomplete
  {
    if events != [] {
      var n := |events| - 1;
      HistoryStays(start, events[..n]);
      RunTurn(start, events);
      StepSees(Run(start, events[..n]).position, events[n]);
    }
  }

  // ---------------------------------------------------------------- blocked candidates and settlements

  /** The moments, since the purchase, at which a candidate was blocked. */
  function BlockMoments(buyAt: Moment, events: seq<Event>, s: Symbol): seq<Moment> {
    if events == [] then []
    else
      var last := events[|events| - 1];
      BlockMoments(buyAt, events[..|events| - 1], s) +
      (if last.Block? && last.symbol == s && last.at >= buyAt then [last.at] else [])
  }

  /** A candidate is listed once it has been blocked, with how often and the first and the last moment. */
  ghost predicate Counts(blocked: map<Symbol, Blocked>, s: Symbol, at: seq<Moment>) {
    if at == [] then s !in blocked
    else s in blocked && blocked[s] == Blocked(|at|, at[0], at[|at| - 1])
  }

  lemma StepBlocks(p: Tracker, e: Event, s: Symbol, at: seq<Moment>)
    requires Counts(p.blocked, s, at)
    ensures
      var after := Step(p, e).position;
      && after.buyAt == p.buyAt
      && Counts(after.blocked, s, at + (if e.Block? && e.symbol == s && e.at >= p.buyAt then [e.at] else []))
  {}

  /** At any time every candidate is listed with the number of its blocks since the purchase and the
      first and the last moment of them. */
  lemma {:induction false} BlockedAreCounted(start: Tracker, events: seq<Event>, s: Symbol)
    requires s !in start.blocked
    ensures Run(start, events).position.buyAt == start.buyAt
    ensures Counts(Run(start, events).position.blocked, s, BlockMoments(start.buyAt, events, s))
  {
    if events != [] {
      var n := |events| - 1;
      BlockedAreCounted(start, events[..n], s);
      RunTurn(start, events);
      StepBlocks(Run(start, events[..n]).position, events[n], s, BlockMoments(start.buyAt, events[..n], s));
    }
  }

  /** The positive quantities of the settlements. */
  function SettledBy(events: seq<Event>): nat {
    if events == [] then 0
    else
      var last := events[|events| - 1];
      SettledBy(events[..|events| - 1]) + (if last.Settlement? && last.quantity > 0 then last.quantity else 0)
  }

  lemma StepSettles(p: Tracker, e: Event)
    ensures Step(p, e).position.settled == p.settled + (if e.Settlement? && e.quantity > 0 then e.quantity else 0)
  {}

  /** What has been settled is the sum of the positive quantities, and no other event changes it. */
  lemma {:induction false} SettledAddsUp(start: Tracker, events: seq<Event>)
    ensures Run(start, events).position.settled == start.settled + SettledBy(events)
  {
    if events != [] {
      var n := |events| - 1;
      SettledAddsUp(start, events[..n]);
      RunTurn(start, events);
      StepSettles(Run(start, events[..n]).position, events[n]);
    }
  }

  // ---------------------------------------------------------------- the tracker in place

  lemma OneMoreRow(p: Tracker, at: Moment, elapsed: nat, price: Option<real>, due: seq<nat>, k: nat)
    requires k < |due|
    ensures
      var now := Emit(p, due[..k]);
      && Emit(p, due[..k + 1]) == now.(completed := now.completed + {due[k]}, quality := Standing(now))
      && Rows(p, at, elapsed, price, due[..k + 1]) ==
           Rows(p, at, elapsed, price, due[..k]) + [RowAt(now, at, elapsed, price, now.quality, due[k])]
  {
    assert due[..k + 1][..k] == due[..k];
    assert forall c :: c in due[..k + 1] <==> c in due[..k] || c == due[k];
  }

  class ShadowPosition {
    const buyAt: Moment
    const buyPrice: real
    const historyIncomplete: bool
    var reference: Option<real>
    var highest: Option<real>
    var lowest: Option<real>
    var count: nat
    var completed: set<nat>
    var quality: set<Flag>
    var blocked: map<Symbol, Blocked>
    var settled: nat

    ghost function View(): Tracker
      reads this
    {
      Tracker(buyAt, buyPrice, historyIncomplete, reference, highest, lowest, count, completed, quality, blocked,
              settled)
    }

    constructor (at: Moment, price: real, known: Option<real>, incomplete: bool, observations: nat)
      requires known.Some? ==> known.value > 0.0
      ensures View() == Fresh(at, price, known, incomplete, observations) && Sound(View())
    {
      buyAt, buyPrice, historyIncomplete, reference := at, price, incomplete, known;
      highest, lowest, count, completed, quality, blocked, settled := None, None, observations, {}, {}, map[], 0;
      new;
      if !incomplete {
        highest, lowest := Some(price), Some(price);
        count := if 1 > observations then 1 else observations;
      } else {
        quality := quality + {HISTORY_MISSING};
      }
      if reference.None? {
        quality := quality + {REFERENCE_UNAVAILABLE};
      }
    }

    method AddBlockedCandidate(s: Symbol, at: Moment)
      modifies `blocked
      ensures View() == Step(old(View()), Block(s, at)).position
    {
      if at < buyAt {
        return;
      }
      if s !in blocked {
        blocked := blocked[s := Blocked(1, at, at)];
        return;
      }
      blocked := blocked[s := blocked[s].(count := blocked[s].count + 1, lastAt := at)];
    }

    /** Notes the quality of an observation and takes a usable price into the extremes and the count. */
    method Take(quote: Quote, text: Flag) returns (price: Option<real>)
      requires Sound(View())
      modifies `quality, `count, `highest, `lowest
      ensures price == Usable(quote)
      ensures View() == Noted(old(View()), quote, text)
    {
      if text != "" {
        quality := quality + {text};
      }
      price := None;
      if quote.Missing? {
        quality := quality + {PRICE_MISSING};
      } else if quote.Price? && quote.value > 0.0 {
        price := Some(quote.value);
      } else {
        quality := quality + {PRICE_INVALID};
      }
      if price.Some? {
        count := count + 1;
        if !historyIncomplete {
          highest := Some(Max(highest.value, price.value));
          lowest := Some(Min(lowest.value, price.value));
        }
      }
    }

    method DueCheckpoints(elapsed: nat) returns (due: seq<nat>)
      ensures due == Due(CHECKPOINTS, completed, elapsed)
    {
      due := [];
      for k := 0 to |CHECKPOINTS|
        invariant due == Due(CHECKPOINTS[..k], completed, elapsed)
      {
        assert CHECKPOINTS[..k + 1][..k] == CHECKPOINTS[..k];
        if CHECKPOINTS[k] !in completed && elapsed >= CHECKPOINTS[k] {
          due := due + [CHECKPOINTS[k]];
        }
      }
      assert CHECKPOINTS[..|CHECKPOINTS|] == CHECKPOINTS;
    }

    method CurrentRatio() returns (ratio: Option<real>)
      requires Sound(View())
      ensures ratio == RangeRatio(View())
    {
      ratio := None;
      if !historyIncomplete && highest.Some? && lowest.Some? && reference.Some? {
        ratio := Some((highest.value - lowest.value) / reference.value);
      }
    }

    method CheckpointFlags(price: Option<real>, elapsed: nat, checkpoint: nat) returns (flags: set<Flag>)
      ensures flags == quality + Conditions(View(), elapsed, price, checkpoint)
    {
      flags := quality;
      if elapsed > checkpoint {
        flags := flags + {OBSERVED_LATE};
      }
      if count < MINIMUM_OBSERVATIONS {
        flags := flags + {FEW_OBSERVATIONS};
      }
      if price.None? {
        flags := flags + {PRICE_UNAVAILABLE};
      }
    }

    method ResetQuality()
      modifies `quality
      ensures quality == Standing(old(View()))
    {
      quality := {};
      if historyIncomplete {
        quality := quality + {HISTORY_MISSING};
      }
      if reference.None? {
        quality := quality + {REFERENCE_UNAVAILABLE};
      }
    }

    /** Completes one checkpoint and writes its row. */
    method Report(at: Moment, price: Option<real>, elapsed: nat, checkpoint: nat) returns (row: Row)
      requires Sound(View())
      modifies `completed, `quality
      ensures row == RowAt(old(View()), at, elapsed, price, old(quality), checkpoint)
      ensures View() == old(View()).(completed := old(completed) + {checkpoint}, quality := Standing(old(View())))
    {
      var flags := CheckpointFlags(price, elapsed, checkpoint);
      var ratio := CurrentRatio();
      row := Row(checkpoint, at, elapsed, price, highest, lowest, count, ratio, flags, BlockedUntil(blocked, at));
      completed := completed + {checkpoint};
      ResetQuality();
    }

    method ReportDue(at: Moment, price: Option<real>, elapsed: nat, due: seq<nat>) returns (rows: seq<Row>)
      requires Sound(View())
      modifies `completed, `quality
      ensures View() == Emit(old(View()), due) && rows == Rows(old(View()), at, elapsed, price, due)
    {
      rows := [];
      ghost var start := View();
      for k := 0 to |due|
        invariant Sound(View())
        invariant View() == Emit(start, due[..k]) && rows == Rows(start, at, elapsed, price, due[..k])
      {
        OneMoreRow(start, at, elapsed, price, due, k);
        var row := Report(at, price, elapsed, due[k]);
        rows := rows + [row];
      }
      assert due[..|due|] == due;
    }

    method Observe(at: Moment, quote: Quote, text: Flag) returns (rows: seq<Row>)
      requires Sound(View())
      modifies this
      ensures Sound(View())
      ensures Outcome(View(), rows) == Step(old(View()), Observation(at, quote, text))
    {
      StepWidens(View(), Observation(at, quote, text));
      var price := Take(quote, text);
      rows := [];
      if TimeOf(at) < LAST_OBSERVATION {
        var elapsed := ElapsedTradingMinutes(buyAt, at);
        var due := DueCheckpoints(elapsed);
        rows := ReportDue(at, price, elapsed, due);
      }
    }

    method Settle(quote: Quote, quantity: int)
      modifies `quality, `settled
      ensures View() == Step(old(View()), Settlement(quote, quantity)).position
    {
      if !(quote.Price? && quote.value > 0.0) {
        quality := quality + {SETTLEMENT_INVALID};
      }
      settled := settled + (if quantity > 0 then quantity else 0);
    }
  }
}
