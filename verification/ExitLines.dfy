/** The trailing exit line (src/domain/volatility.py) and the loops that follow it. */
module ExitLines {
  import opened Common

  // The line runs at a multiple of the average true range below the highest price held. The loops are those of
  // scripts/analysis/entry_condition.py and analyze_market_regime_skip_study.py.

  datatype Level = Normal | Caution | Danger

  /** The seven exit settings. */
  datatype Settings = Settings(
    stopNormal: real, stopCaution: real, stopDanger: real,
    lockNormal: real, lockCaution: real, lockDanger: real,
    trigger: real)

  /** Settings that `stop_loss_multiplier` and `resolve_atr_exit_multiplier` accept. */
  predicate Accepted(s: Settings) {
    && s.stopNormal > 0.0 && s.stopCaution > 0.0 && s.stopDanger > 0.0
    && s.lockNormal > 0.0 && s.lockCaution > 0.0 && s.lockDanger > 0.0
    && s.trigger >= 0.0
  }

  function ByLevel(level: Level, normal: real, caution: real, danger: real): real {
    match level
    case Normal => normal
    case Caution => caution
    case Danger => danger
  }

  function StopLossMultiplier(level: Level, normal: real, caution: real, danger: real): Result<real> {
    var multiplier := ByLevel(level, normal, caution, danger);
    if multiplier <= 0.0 then Raised else Ok(multiplier)
  }

  function ResolveExitMultiplier(gain: real, atr: real, level: Level, s: Settings): Result<real> {
    if s.trigger < 0.0 then Raised
    else if atr > 0.0 && gain >= atr * s.trigger
    then StopLossMultiplier(level, s.lockNormal, s.lockCaution, s.lockDanger)
    else StopLossMultiplier(level, s.stopNormal, s.stopCaution, s.stopDanger)
  }

  /** The stop distance of a level, or its profit-lock distance. */
  ghost predicate IsSetting(level: Level, s: Settings, locking: bool, multiplier: real) {
    match level
    case Normal => multiplier == if locking then s.lockNormal else s.stopNormal
    case Caution => multiplier == if locking then s.lockCaution else s.stopCaution
    case Danger => multiplier == if locking then s.lockDanger else s.stopDanger
  }

  /** The multiplier resolved is the profit-lock setting of the level once the gain is the trigger multiple of the range,
      and its stop setting before; the program raises exactly on a negative trigger or a setting that is not
      positive. */
  lemma MultiplierIff(gain: real, atr: real, level: Level, s: Settings, multiplier: real)
    ensures ResolveExitMultiplier(gain, atr, level, s) == Ok(multiplier) <==>
      && s.trigger >= 0.0 && multiplier > 0.0
      && IsSetting(level, s, atr > 0.0 && gain >= atr * s.trigger, multiplier)
  {}

  /** Settings are accepted exactly when the program raises on them for no position. */
  lemma AcceptedIff(s: Settings)
    ensures Accepted(s) <==> forall gain: real, atr: real, level :: ResolveExitMultiplier(gain, atr, level, s).Ok?
  {
    if !Accepted(s) && s.trigger >= 0.0 {
      var level :=
        if s.stopNormal <= 0.0 || s.lockNormal <= 0.0 then Normal
        else if s.stopCaution <= 0.0 || s.lockCaution <= 0.0 then Caution
        else Danger;
      assert ResolveExitMultiplier(0.0, 0.0, level, s).Raised?
        || ResolveExitMultiplier(s.trigger, 1.0, level, s).Raised?;
    } else if !Accepted(s) {
      assert ResolveExitMultiplier(0.0, 0.0, Normal, s).Raised?;
    }
  }

  /** A position that is followed: its entry price, its range and the settings in force. */
  datatype Trail = Trail(entry: real, atr: real, level: Level, settings: Settings)

  predicate Followable(t: Trail) {
    t.atr > 0.0 && Accepted(t.settings)
  }

  function Stop(t: Trail): real {
    ByLevel(t.level, t.settings.stopNormal, t.settings.stopCaution, t.settings.stopDanger)
  }

  function Lock(t: Trail): real {
    ByLevel(t.level, t.settings.lockNormal, t.settings.lockCaution, t.settings.lockDanger)
  }

  /** The highest of the entry price and the first `n` prices. */
  function High(entry: real, prices: seq<real>, n: nat): real
    requires n <= |prices|
  {
    if n == 0 then entry else Max(High(entry, prices, n - 1), prices[n - 1])
  }

  lemma {:induction false} HighIsMaximum(entry: real, prices: seq<real>, n: nat)
    requires n <= |prices|
    ensures entry <= High(entry, prices, n)
    ensures forall i :: 0 <= i < n ==> prices[i] <= High(entry, prices, n)
    ensures High(entry, prices, n) == entry || High(entry, prices, n) in prices[..n]
  {
    if n > 0 {
      HighIsMaximum(entry, prices, n - 1);
      assert prices[..n] == prices[..n - 1] + [prices[n - 1]];
    }
  }

  lemma {:induction false} HighRises(entry: real, prices: seq<real>, m: nat, n: nat)
    requires m <= n <= |prices|
    ensures High(entry, prices, m) <= High(entry, prices, n)
  {
    if m < n {
      HighRises(entry, prices, m, n - 1);
    }
  }

  function Times(atr: real, multiplier: real): real {
    atr * multiplier
  }

  /** The three distances that the settings give for this position. */
  function StopOffset(t: Trail): real {
    Times(t.atr, Stop(t))
  }

  function LockOffset(t: Trail): real {
    Times(t.atr, Lock(t))
  }

  function LockingGain(t: Trail): real {
    Times(t.atr, t.settings.trigger)
  }

  lemma OffsetsFollowMultipliers(t: Trail)
    requires Followable(t)
    ensures Stop(t) < Lock(t) <==> StopOffset(t) < LockOffset(t)
    ensures LockingGain(t) >= 0.0
    ensures LockingGain(t) == 0.0 <==> t.settings.trigger == 0.0
  {
    CompareProducts(t.atr, Stop(t), Lock(t));
    CompareProducts(t.atr, 0.0, t.settings.trigger);
    assert Times(t.atr, 0.0) == 0.0;
  }

  lemma CompareProducts(c: real, a: real, b: real)
    requires c > 0.0
    ensures a < b <==> Times(c, a) < Times(c, b)
  {
    var x, y := c * a, c * b;
    if a < b {
      ScaleIsStrict(a, b, c);
      assert x < y;
    } else {
      ScaleKeepsOrder(b, a, c);
      assert y <= x;
    }
  }

  /** Whether the highest price is far enough above the entry for profit to be locked in. */
  predicate Locked(t: Trail, high: real) {
    high - t.entry >= LockingGain(t)
  }

  /** The exit line for a given highest price. */
  function LineFor(t: Trail, high: real): real {
    high - (if Locked(t, high) then LockOffset(t) else StopOffset(t))
  }

  /** The exit line at price `i`. */
  function LineAt(t: Trail, prices: seq<real>, i: nat): real
    requires i < |prices|
  {
    LineFor(t, High(t.entry, prices, i + 1))
  }

  predicate Hit(t: Trail, prices: seq<real>, i: nat)
    requires i < |prices|
  {
    prices[i] <= LineAt(t, prices, i)
  }

  /** The line as the program computes it, from the multiplier it resolves. */
  function ExitLine(t: Trail, high: real): Result<real> {
    var multiplier := ResolveExitMultiplier(high - t.entry, t.atr, t.level, t.settings);
    if multiplier.Raised? then Raised else Ok(high - t.atr * multiplier.value)
  }

  lemma ExitLineIsLine(t: Trail, high: real)
    requires Followable(t)
    ensures ResolveExitMultiplier(high - t.entry, t.atr, t.level, t.settings) ==
            Ok(MultiplierAt(t, high))
    ensures ExitLine(t, high) == Ok(LineFor(t, high))
  {}

  /** The first of the first `n` prices at or below its line. */
  function FirstHit(t: Trail, prices: seq<real>, n: nat): (r: Option<nat>)
    requires n <= |prices|
    ensures r.Some? ==> r.value < n
  {
    if n == 0 then None
    else
      var earlier := FirstHit(t, prices, n - 1);
      if earlier.Some? then earlier
      else if Hit(t, prices, n - 1) then Some(n - 1)
      else None
  }

  lemma {:induction false} FirstHitIsLeast(t: Trail, prices: seq<real>, n: nat)
    requires n <= |prices|
    ensures FirstHit(t, prices, n).Some? ==>
      var i := FirstHit(t, prices, n).value;
      i < n && Hit(t, prices, i) && forall k :: 0 <= k < i ==> !Hit(t, prices, k)
    ensures FirstHit(t, prices, n).None? ==> forall k :: 0 <= k < n ==> !Hit(t, prices, k)
  {
    if n > 0 {
      FirstHitIsLeast(t, prices, n - 1);
    }
  }

  // ---------------------------------------------------------------- the hypothetical exit

  datatype Bar = Bar(time: int, price: real)

  function Prices(bars: seq<Bar>): seq<real> {
    seq(|bars|, i requires 0 <= i < |bars| => bars[i].price)
  }

  datatype Hypothetical =
    | Unavailable
    | Followed(trail: Trail, stop: real, stopMultiplier: real, finalMultiplier: real,
               lines: seq<real>, margins: seq<real>, exit: Option<nat>)

  /** Follows the line from the first bar and stops at the first bar at or below it. */
  method FollowLine(t: Trail, bars: seq<Bar>) returns (lines: seq<real>, high: real, exit: Option<nat>)
    requires Followable(t)
    ensures exit == FirstHit(t, Prices(bars), |bars|)
    ensures |lines| == (if exit.Some? then exit.value + 1 else |bars|)
    ensures high == High(t.entry, Prices(bars), |lines|)
    ensures forall k :: 0 <= k < |lines| ==> lines[k] == LineAt(t, Prices(bars), k)
  {
    ghost var prices := Prices(bars);
    high := t.entry;
    lines := [];
    exit := None;
    for i := 0 to |bars|
      invariant |lines| == i && high == High(t.entry, prices, i)
      invariant forall k :: 0 <= k < i ==> lines[k] == LineAt(t, prices, k)
      invariant FirstHit(t, prices, i).None? && exit.None?
    {
      high := Max(high, bars[i].price);
      ExitLineIsLine(t, high);
      var line := ExitLine(t, high).value;
      lines := lines + [line];
      if bars[i].price <= line {
        exit := Some(i);
        FirstHitStays(t, prices, i + 1, |bars|);
        break;
      }
    }
  }

  /** The range is the one computed from daily bars when there is one, else the recorded one. */
  function RangeSource(assessed: Option<(real, Level)>, recorded: Option<(real, Level)>): Option<(real, Level)> {
    if assessed.Some? then assessed else recorded
  }

  function Margins(bars: seq<Bar>, lines: seq<real>): seq<real>
    requires |lines| <= |bars|
  {
    seq(|lines|, k requires 0 <= k < |lines| => bars[k].price - lines[k])
  }

  function InitialStop(t: Trail): real {
    t.entry - StopOffset(t)
  }

  function MultiplierAt(t: Trail, high: real): real {
    if Locked(t, high) then Lock(t) else Stop(t)
  }

  /** The multiplier that the program resolves for a highest price. */
  ghost predicate Resolves(t: Trail, high: real, multiplier: real) {
    ResolveExitMultiplier(high - t.entry, t.atr, t.level, t.settings) == Ok(multiplier)
  }

  /** That many ranges below the highest price. */
  ghost predicate IsLine(t: Trail, high: real, line: real) {
    var multiplier := ResolveExitMultiplier(high - t.entry, t.atr, t.level, t.settings);
    multiplier.Ok? && line == high - t.atr * multiplier.value
  }

  lemma LineIsLine(t: Trail, high: real)
    requires Followable(t)
    ensures IsLine(t, high, LineFor(t, high)) && Resolves(t, high, MultiplierAt(t, high))
  {
    ExitLineIsLine(t, high);
  }

  lemma StopIsBelowEntry(t: Trail)
    ensures InitialStop(t) == t.entry - t.atr * Stop(t) && IsSetting(t.level, t.settings, false, Stop(t))
  {}

  /** What the assumed exit shows: the range computed from daily bars, or else the recorded one; the stop that many
      ranges below the entry; and along the bars the line below the highest price so far, with the distance of each
      price from it. */
  ghost predicate Shows(r: Hypothetical, bars: seq<Bar>, entry: real, assessed: Option<(real, Level)>,
                        recorded: Option<(real, Level)>)
    requires r.Followed?
  {
    && (r.trail.atr, r.trail.level) == (if assessed.Some? then assessed.value else (r.trail.atr, r.trail.level))
    && (assessed.None? ==> recorded == Some((r.trail.atr, r.trail.level)))
    && r.stop == entry - r.trail.atr * r.stopMultiplier
    && IsSetting(r.trail.level, r.trail.settings, false, r.stopMultiplier)
    && |r.margins| == |r.lines| <= |bars|
    && (forall i :: 0 <= i < |r.lines| ==> r.margins[i] == bars[i].price - r.lines[i])
    && (forall i :: 0 <= i < |r.lines| ==> IsLine(r.trail, High(entry, Prices(bars), i + 1), r.lines[i]))
    && Resolves(r.trail, High(entry, Prices(bars), |r.lines|), r.finalMultiplier)
  }

  lemma FollowedShows(r: Hypothetical, bars: seq<Bar>, entry: real, assessed: Option<(real, Level)>,
                      recorded: Option<(real, Level)>)
    requires r.Followed? && Followable(r.trail) && r.trail.entry == entry
    requires RangeSource(assessed, recorded) == Some((r.trail.atr, r.trail.level))
    requires r.stopMultiplier == Stop(r.trail) && r.stop == InitialStop(r.trail) && |r.lines| <= |bars|
    requires forall i :: 0 <= i < |r.lines| ==> r.lines[i] == LineAt(r.trail, Prices(bars), i)
    requires r.margins == Margins(bars, r.lines)
    requires r.finalMultiplier == MultiplierAt(r.trail, High(entry, Prices(bars), |r.lines|))
    ensures Shows(r, bars, entry, assessed, recorded)
  {
    StopIsBelowEntry(r.trail);
    LineIsLine(r.trail, High(entry, Prices(bars), |r.lines|));
    forall i | 0 <= i < |r.lines| ensures IsLine(r.trail, High(entry, Prices(bars), i + 1), r.lines[i]) {
      LineIsLine(r.trail, High(entry, Prices(bars), i + 1));
    }
  }

  /** The exit of a position assumed bought at `entry`. */
  method HypotheticalExit(bars: seq<Bar>, entry: real, assessed: Option<(real, Level)>,
                          recorded: Option<(real, Level)>, settings: Settings)
    returns (r: Hypothetical)
    requires Accepted(settings)
    ensures
      var source := RangeSource(assessed, recorded);
      r.Unavailable? <==> source.None? || source.value.0 <= 0.0 || bars == []
    ensures r.Followed? ==>
      && RangeSource(assessed, recorded) == Some((r.trail.atr, r.trail.level))
      && r.trail.entry == entry && r.trail.settings == settings
      && r.stopMultiplier == Stop(r.trail) && r.stop == InitialStop(r.trail)
      && r.exit == FirstHit(r.trail, Prices(bars), |bars|)
      && |r.lines| == (if r.exit.Some? then r.exit.value + 1 else |bars|)
      && (forall i :: 0 <= i < |r.lines| ==> r.lines[i] == LineAt(r.trail, Prices(bars), i))
      && r.margins == Margins(bars, r.lines)
      && r.finalMultiplier == MultiplierAt(r.trail, High(entry, Prices(bars), |r.lines|))
    ensures r.Followed? ==> Shows(r, bars, entry, assessed, recorded)
  {
    var source := RangeSource(assessed, recorded);
    if source.None? || source.value.0 <= 0.0 || bars == [] {
      return Unavailable;
    }
    var t := Trail(entry, source.value.0, source.value.1, settings);
    var lines, high, exit := FollowLine(t, bars);
    ExitLineIsLine(t, high);
    var multiplier := ResolveExitMultiplier(high - entry, t.atr, t.level, settings).value;
    r := Followed(t, InitialStop(t), Stop(t), multiplier, lines, Margins(bars, lines), exit);
    FollowedShows(r, bars, entry, assessed, recorded);
  }

  lemma {:induction false} FirstHitStays(t: Trail, prices: seq<real>, m: nat, n: nat)
    requires m <= n <= |prices| && FirstHit(t, prices, m).Some?
    ensures FirstHit(t, prices, n) == FirstHit(t, prices, m)
  {
    if m < n {
      FirstHitStays(t, prices, m, n - 1);
    }
  }

  // ---------------------------------------------------------------- the recorded scenario

  datatype Summary = Summary(bars: seq<Bar>, high: Option<real>, low: Option<real>)

  datatype Scenario =
    | RangeNotRecorded
    | Reached(bar: nat, price: real, time: int, line: real)
    | NotReached(line: real)
    | AggregateNotReached(line: real)
    | PathMissing

  /** How many leading bars come before the first one after the cutoff. */
  function Timely(bars: seq<Bar>, cutoff: int): (n: nat)
    ensures n <= |bars|
    ensures forall i :: 0 <= i < n ==> bars[i].time <= cutoff
    ensures n < |bars| ==> bars[n].time > cutoff
  {
    if bars == [] || bars[0].time > cutoff then 0
    else 1 + Timely(bars[1..], cutoff)
  }

  /** The scenario along a path of bars: the first exit before the first late bar, or else the line
      reached by then. */
  method FollowUntil(t: Trail, bars: seq<Bar>, cutoff: int) returns (r: Scenario)
    requires Followable(t)
    ensures
      var n := Timely(bars, cutoff);
      match FirstHit(t, Prices(bars), n)
      case Some(i) => r == Reached(i, bars[i].price, bars[i].time, LineAt(t, Prices(bars), i))
      case None => r == NotReached(LineFor(t, High(t.entry, Prices(bars), n)))
  {
    ghost var prices := Prices(bars);
    var high := t.entry;
    var i := 0;
    while i < |bars|
      invariant 0 <= i <= |bars|
      invariant forall k :: 0 <= k < i ==> bars[k].time <= cutoff
      invariant high == High(t.entry, prices, i)
      invariant FirstHit(t, prices, i).None?
    {
      if bars[i].time > cutoff {
        break;
      }
      high := Max(high, bars[i].price);
      ExitLineIsLine(t, high);
      var line := ExitLine(t, high).value;
      if bars[i].price <= line {
        FirstHitStays(t, prices, i + 1, Timely(bars, cutoff));
        return Reached(i, bars[i].price, bars[i].time, line);
      }
      i := i + 1;
    }
    ExitLineIsLine(t, high);
    r := NotReached(ExitLine(t, high).value);
  }

  /** What the day's extremes alone decide. */
  function FromExtremes(t: Trail, high: Option<real>, low: Option<real>): Scenario {
    if high.Some? && low.Some? && high.value <= t.entry && low.value > LineFor(t, t.entry)
    then AggregateNotReached(LineFor(t, t.entry))
    else PathMissing
  }

  /** The recorded skip, followed along its bars up to the cutoff when there are any; without bars
      only the day's extremes are available. */
  method AtrScenario(atr: Option<real>, level: Option<Level>, reference: real, cutoff: int,
                     summary: Option<Summary>, settings: Settings)
    returns (r: Scenario)
    requires Accepted(settings)
    ensures r.RangeNotRecorded? <==> atr.None? || atr.value <= 0.0 || level.None?
    ensures !r.RangeNotRecorded? && summary.Some? && summary.value.bars != [] ==>
      var t := Trail(reference, atr.value, level.value, settings);
      var bars := summary.value.bars;
      var n := Timely(bars, cutoff);
      match FirstHit(t, Prices(bars), n)
      case Some(i) => r == Reached(i, bars[i].price, bars[i].time, LineAt(t, Prices(bars), i))
      case None => r == NotReached(LineFor(t, High(reference, Prices(bars), n)))
    ensures !r.RangeNotRecorded? && summary.Some? && summary.value.bars == [] ==>
      r == FromExtremes(Trail(reference, atr.value, level.value, settings), summary.value.high, summary.value.low)
    ensures !r.RangeNotRecorded? && summary.None? ==> r.PathMissing?
  {
    if atr.None? || atr.value <= 0.0 || level.None? {
      return RangeNotRecorded;
    }
    var t := Trail(reference, atr.value, level.value, settings);
    if summary.Some? && summary.value.bars != [] {
      r := FollowUntil(t, summary.value.bars, cutoff);
      return;
    }
    if summary.Some? && summary.value.high.Some? && summary.value.low.Some? {
      if summary.value.high.value <= reference {
        ExitLineIsLine(t, reference);
        var line := ExitLine(t, reference).value;
        if summary.value.low.value > line {
          return AggregateNotReached(line);
        }
      }
    }
    r := PathMissing;
  }

  /** Restricting the bars keeps an exit that lies within them and finds no other. */
  lemma {:induction false} CutoffRestricts(t: Trail, prices: seq<real>, n: nat, m: nat)
    requires n <= m <= |prices|
    ensures FirstHit(t, prices, n) ==
            (if FirstHit(t, prices, m).Some? && FirstHit(t, prices, m).value < n
             then FirstHit(t, prices, m) else None)
  {
    FirstHitIsLeast(t, prices, n);
    FirstHitIsLeast(t, prices, m);
    if FirstHit(t, prices, n).Some? {
      FirstHitStays(t, prices, n, m);
    }
  }

  /** The two loops find the same exit: the scenario's is the hypothetical one when that comes
      no later than the last bar before the cutoff, and otherwise there is none. */
  lemma {:induction false} ExitLoopsAgree(t: Trail, bars: seq<Bar>, cutoff: int)
    ensures
      var hypothetical := FirstHit(t, Prices(bars), |bars|);
      var scenario := FirstHit(t, Prices(bars), Timely(bars, cutoff));
      scenario == (if hypothetical.Some?
                   && (forall k :: 0 <= k <= hypothetical.value ==> k < |bars| && bars[k].time <= cutoff)
                   then hypothetical else None)
  {
    var n := Timely(bars, cutoff);
    FirstHitIsLeast(t, Prices(bars), |bars|);
    CutoffRestricts(t, Prices(bars), n, |bars|);
    var hypothetical := FirstHit(t, Prices(bars), |bars|);
    if hypothetical.Some? && n <= hypothetical.value {
      assert bars[n].time > cutoff;
    }
  }

  /** What the day's extremes decide without a path holds of every path between them. */
  lemma {:induction false} AggregateIsSound(t: Trail, prices: seq<real>, high: real, low: real, n: nat)
    requires Followable(t) && high <= t.entry && low > LineFor(t, t.entry)
    requires n <= |prices| && forall i :: 0 <= i < |prices| ==> low <= prices[i] <= high
    ensures FirstHit(t, prices, n).None? && High(t.entry, prices, n) == t.entry
  {
    if n > 0 {
      AggregateIsSound(t, prices, high, low, n - 1);
    }
  }

  /** All prices lie between the day's extremes. */
  ghost predicate Between(prices: seq<real>, low: real, high: real) {
    forall i :: 0 <= i < |prices| ==> low <= prices[i] <= high
  }

  /** The extremes decide exactly when the high is no gain and no path between them comes down to the line; the line is
      then that of the entry price. */
  lemma {:induction false} ExtremesDecideIff(t: Trail, high: real, low: real)
    requires Followable(t) && low <= high
    ensures
      var r := FromExtremes(t, Some(high), Some(low));
      && (r.AggregateNotReached? <==>
            && high <= t.entry
            && forall prices :: Between(prices, low, high) ==> FirstHit(t, prices, |prices|).None?)
      && (r.AggregateNotReached? ==> r.line == LineFor(t, t.entry))
      && (!r.AggregateNotReached? ==> r == PathMissing)
  {
    if high <= t.entry {
      if low > LineFor(t, t.entry) {
        forall prices | Between(prices, low, high) ensures FirstHit(t, prices, |prices|).None? {
          AggregateIsSound(t, prices, high, low, |prices|);
        }
      } else {
        assert Between([low], low, high);
        assert High(t.entry, [low], 0) == t.entry && High(t.entry, [low], 1) == t.entry;
        assert FirstHit(t, [low], 0).None? && Hit(t, [low], 0);
      }
    }
  }

  // ---------------------------------------------------------------- does the line ever fall?

  /** The line never falls, whatever the prices do. */
  ghost predicate NeverFalls(t: Trail) {
    forall prices: seq<real>, i: nat, j: nat :: i <= j < |prices| ==> LineAt(t, prices, i) <= LineAt(t, prices, j)
  }

  /** A trailing line never falls exactly when locking in profit does not widen the distance, or
      profit is locked in from the start. The shipped settings (stop 1.5/1.0/0.7,
      lock 2.5/2.0/1.0, trigger 0.5) fail this at every level. */
  lemma {:induction false} LineNeverFallsIff(t: Trail)
    requires Followable(t)
    ensures NeverFalls(t) <==> Lock(t) <= Stop(t) || t.settings.trigger == 0.0
  {
    if Lock(t) <= Stop(t) || t.settings.trigger == 0.0 {
      forall prices: seq<real>, i: nat, j: nat | i <= j < |prices|
        ensures LineAt(t, prices, i) <= LineAt(t, prices, j)
      {
        HighRises(t.entry, prices, i + 1, j + 1);
        HighIsMaximum(t.entry, prices, i + 1);
        LineForRises(t, High(t.entry, prices, i + 1), High(t.entry, prices, j + 1));
      }
    } else {
      var prices := FallingPrices(t);
      LineFalls(t);
      assert LineAt(t, prices, 0) > LineAt(t, prices, 1);
    }
  }

  lemma LineForRises(t: Trail, a: real, b: real)
    requires Followable(t) && t.entry <= a <= b
    requires Lock(t) <= Stop(t) || t.settings.trigger == 0.0
    ensures LineFor(t, a) <= LineFor(t, b)
  {
    OffsetsFollowMultipliers(t);
  }

  /** Two prices around the point where profit is locked in. */
  function FallingPrices(t: Trail): seq<real> {
    var switch := t.entry + LockingGain(t);
    [switch - Min(LockingGain(t), LockOffset(t) - StopOffset(t)) / 2.0, switch]
  }

  lemma {:induction false} LineFalls(t: Trail)
    requires Followable(t) && Lock(t) > Stop(t) && t.settings.trigger > 0.0
    ensures LineAt(t, FallingPrices(t), 0) > LineAt(t, FallingPrices(t), 1)
  {
    var p := FallingPrices(t);
    OffsetsFollowMultipliers(t);
    assert t.entry <= p[0] < p[1];
    assert High(t.entry, p, 0) == t.entry;
    assert High(t.entry, p, 1) == p[0];
    assert High(t.entry, p, 2) == p[1];
  }

  /** A position of the NORMAL level under the shipped settings: the line falls. */
  lemma ShippedLineFalls()
    ensures
      var shipped := Settings(1.5, 1.0, 0.7, 2.5, 2.0, 1.0, 0.5);
      var t := Trail(100.0, 2.0, Normal, shipped);
      && Followable(t)
      && LineAt(t, [100.5, 101.0], 0) == 97.5
      && LineAt(t, [100.5, 101.0], 1) == 96.0
  {
    var prices := [100.5, 101.0];
    assert High(100.0, prices, 0) == 100.0;
    assert High(100.0, prices, 1) == 100.5;
    assert High(100.0, prices, 2) == 101.0;
  }
}
