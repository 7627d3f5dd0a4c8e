/** The trailing line drawn in the intraday charts and its publication as a step line. */
module ChartLines {
  import opened Common
  import opened ExitLines

  // scripts/analysis/plot_intraday_trade_diagnostics.py draws it, intraday_chart_payload.py publishes it.

  datatype TradeLines = TradeLines(
    entry: real, stop: real, atr: real,
    stopMultiplier: real, profitMultiplier: real, triggerMultiple: real)

  /** An unknown level, here absent, is treated as NORMAL. */
  function SelectMultiplier(level: Option<Level>, settings: Settings, stop: bool): real {
    var known := if level.Some? then level.value else Normal;
    if stop then ByLevel(known, settings.stopNormal, settings.stopCaution, settings.stopDanger)
    else ByLevel(known, settings.lockNormal, settings.lockCaution, settings.lockDanger)
  }

  function BuildLines(entry: real, atr: real, level: Option<Level>, settings: Settings): Result<TradeLines> {
    if entry <= 0.0 || atr <= 0.0 then Raised
    else
      var stop := SelectMultiplier(level, settings, true);
      Ok(TradeLines(entry, entry - Times(atr, stop), atr, stop, SelectMultiplier(level, settings, false),
                    settings.trigger))
  }

  /** The trailing line at price `i`, absent while profit is not locked in. */
  function TrailingAt(lines: TradeLines, prices: seq<real>, i: nat): Option<real>
    requires i < |prices|
  {
    var high := High(lines.entry, prices, i + 1);
    if high - lines.entry >= Times(lines.atr, lines.triggerMultiple)
    then Some(high - Times(lines.atr, lines.profitMultiplier))
    else None
  }

  function Trailing(lines: TradeLines, prices: seq<real>): seq<Option<real>> {
    seq(|prices|, i requires 0 <= i < |prices| => TrailingAt(lines, prices, i))
  }

  ghost predicate IsMinimum(m: Option<real>, values: seq<real>) {
    if values == [] then m.None?
    else m.Some? && m.value in values && forall v :: v in values ==> m.value <= v
  }

  method Minimum(values: seq<real>) returns (m: Option<real>)
    ensures IsMinimum(m, values)
  {
    m := None;
    for i := 0 to |values|
      invariant IsMinimum(m, values[..i])
    {
      assert values[..i + 1] == values[..i] + [values[i]];
      if m.None? || values[i] < m.value {
        m := Some(values[i]);
      }
    }
    assert values[..|values|] == values;
  }

  /** The distances of the drawn prices from the trailing line, where it exists. */
  function TrailingMargins(prices: seq<real>, trailing: seq<Option<real>>, n: nat): seq<real>
    requires n <= |prices| == |trailing|
  {
    if n == 0 then []
    else TrailingMargins(prices, trailing, n - 1) +
         (if trailing[n - 1].Some? then [prices[n - 1] - trailing[n - 1].value] else [])
  }

  /** The least distance of a price from the line drawn at it, absent when there is none. */
  ghost predicate IsLeastMargin(least: Option<real>, prices: seq<real>, trailing: seq<Option<real>>)
    requires |prices| == |trailing|
  {
    if least.None? then forall i :: 0 <= i < |prices| ==> trailing[i].None?
    else
      && (exists i :: 0 <= i < |prices| && trailing[i].Some? && least.value == prices[i] - trailing[i].value)
      && forall i :: 0 <= i < |prices| && trailing[i].Some? ==> least.value <= prices[i] - trailing[i].value
  }

  lemma {:induction false} MarginsAreDistances(prices: seq<real>, trailing: seq<Option<real>>, n: nat, x: real)
    requires n <= |prices| == |trailing|
    ensures x in TrailingMargins(prices, trailing, n) <==>
            exists i :: 0 <= i < n && trailing[i].Some? && x == prices[i] - trailing[i].value
  {
    if n > 0 {
      MarginsAreDistances(prices, trailing, n - 1, x);
    }
  }

  lemma LeastIsLeastMargin(least: Option<real>, prices: seq<real>, trailing: seq<Option<real>>)
    requires |prices| == |trailing| && IsMinimum(least, TrailingMargins(prices, trailing, |prices|))
    ensures IsLeastMargin(least, prices, trailing)
  {
    var margins := TrailingMargins(prices, trailing, |prices|);
    forall i | 0 <= i < |prices| && trailing[i].Some? ensures prices[i] - trailing[i].value in margins {
      MarginsAreDistances(prices, trailing, |prices|, prices[i] - trailing[i].value);
    }
    if least.Some? {
      MarginsAreDistances(prices, trailing, |prices|, least.value);
    }
  }

  /** The loop over the prices after a purchase, with both smallest margins. */
  method CalculateTrailingLines(prices: seq<real>, lines: TradeLines)
    returns (trailing: seq<Option<real>>, stopMargins: seq<real>, leastTrailing: Option<real>, leastStop: Option<real>)
    ensures trailing == Trailing(lines, prices)
    ensures |stopMargins| == |prices| && forall i :: 0 <= i < |prices| ==> stopMargins[i] == prices[i] - lines.stop
    ensures IsMinimum(leastTrailing, TrailingMargins(prices, trailing, |prices|))
    ensures IsMinimum(leastStop, stopMargins)
    ensures IsLeastMargin(leastTrailing, prices, trailing)
  {
    var high := lines.entry;
    ghost var drawn := Trailing(lines, prices);
    var trailingMargins: seq<real> := [];
    trailing, stopMargins := [], [];
    for i := 0 to |prices|
      invariant high == High(lines.entry, prices, i)
      invariant |trailing| == i && forall k :: 0 <= k < i ==> trailing[k] == drawn[k]
      invariant |stopMargins| == i && forall k :: 0 <= k < i ==> stopMargins[k] == prices[k] - lines.stop
      invariant trailingMargins == TrailingMargins(prices, drawn, i)
    {
      high := Max(high, prices[i]);
      assert drawn[i] == TrailingAt(lines, prices, i);
      stopMargins := stopMargins + [prices[i] - lines.stop];
      if high - lines.entry >= Times(lines.atr, lines.triggerMultiple) {
        var line := high - Times(lines.atr, lines.profitMultiplier);
        trailing := trailing + [Some(line)];
        trailingMargins := trailingMargins + [prices[i] - line];
      } else {
        trailing := trailing + [None];
      }
    }
    assert trailing == drawn;
    leastTrailing := Minimum(trailingMargins);
    leastStop := Minimum(stopMargins);
    LeastIsLeastMargin(leastTrailing, prices, trailing);
  }

  /** Once drawn, the trailing line stays and never falls. */
  lemma {:induction false} TrailingNeverFalls(lines: TradeLines, prices: seq<real>, i: nat, j: nat)
    requires i <= j < |prices| && TrailingAt(lines, prices, i).Some?
    ensures TrailingAt(lines, prices, j).Some?
    ensures TrailingAt(lines, prices, i).value <= TrailingAt(lines, prices, j).value
  {
    HighRises(lines.entry, prices, i + 1, j + 1);
  }

  /** The drawn line is the exit line of the loops in `ExitLines` on exactly the bars where profit is
      locked in, and the drawn stop is the exit line's starting point. */
  lemma {:induction false} DrawnLineIsExitLine(t: Trail, lines: TradeLines, prices: seq<real>, i: nat)
    requires i < |prices|
    requires BuildLines(t.entry, t.atr, Some(t.level), t.settings) == Ok(lines)
    ensures TrailingAt(lines, prices, i).Some? <==> Locked(t, High(t.entry, prices, i + 1))
    ensures TrailingAt(lines, prices, i).Some? ==> TrailingAt(lines, prices, i).value == LineAt(t, prices, i)
    ensures TrailingAt(lines, prices, i).None? ==>
              LineAt(t, prices, i) == lines.stop + (High(t.entry, prices, i + 1) - t.entry)
  {
    match t.level
    case Normal =>
    case Caution =>
    case Danger =>
  }

  /** A position without a level is drawn like one of the normal level. */
  lemma UnknownLevelIsNormal(entry: real, atr: real, settings: Settings)
    ensures BuildLines(entry, atr, None, settings) == BuildLines(entry, atr, Some(Normal), settings)
    ensures BuildLines(entry, atr, None, settings).Raised? <==> entry <= 0.0 || atr <= 0.0
  {}

  // ---------------------------------------------------------------- the published step line

  /** A published point: a minute label and a rounded value. */
  datatype Point = Point(minute: int, value: real)

  /** The last value present among the first `n`. */
  function LastValue(values: seq<Option<real>>, n: nat): Option<real>
    requires n <= |values|
  {
    if n == 0 then None
    else if values[n - 1].Some? then values[n - 1]
    else LastValue(values, n - 1)
  }

  /** The points kept of the first `n` bars. */
  function Points(labels: seq<int>, values: seq<Option<real>>, round: real -> real, n: nat): seq<Point>
    requires n <= |labels| && n <= |values|
  {
    if n == 0 then []
    else
      var kept := Points(labels, values, round, n - 1);
      if values[n - 1].Some? && (values[n - 1] != LastValue(values, n - 1) || n - 1 == |labels| - 1)
      then kept + [Point(labels[n - 1], round(values[n - 1].value))]
      else kept
  }

  function Shorter(labels: seq<int>, values: seq<Option<real>>): nat {
    if |labels| <= |values| then |labels| else |values|
  }

  /** Keeps the bars where the value changes, and the last bar. */
  method StepPoints(labels: seq<int>, values: seq<Option<real>>, round: real -> real) returns (points: seq<Point>)
    ensures points == Points(labels, values, round, Shorter(labels, values))
  {
    points := [];
    var previous: Option<real> := None;
    for i := 0 to Shorter(labels, values)
      invariant previous == LastValue(values, i)
      invariant points == Points(labels, values, round, i)
    {
      if values[i].None? {
        continue;
      }
      if values[i] != previous || i == |labels| - 1 {
        points := points + [Point(labels[i], round(values[i].value))];
        previous := values[i];
      }
    }
  }

  /** The bars of the points kept, in order. */
  ghost predicate KeptFrom(labels: seq<int>, values: seq<Option<real>>, round: real -> real, n: nat, points: seq<Point>,
                           from: seq<nat>)
    requires n <= |labels| && n <= |values|
  {
    && |from| == |points| && (forall k, l :: 0 <= k < l < |from| ==> from[k] < from[l])
    && (forall k :: 0 <= k < |from| ==>
          && from[k] < n && values[from[k]].Some?
          && points[k] == Point(labels[from[k]], round(values[from[k]].value)))
    && (forall k :: 0 <= k < |from| && from[k] < |labels| - 1 ==>
          values[from[k]] != LastValue(values, from[k]))
  }

  /** Only bars with a new value are kept, and the last one. */
  lemma {:induction false} OnlyChangesAreKept(labels: seq<int>, values: seq<Option<real>>, round: real -> real, n: nat)
    returns (from: seq<nat>)
    requires n <= |labels| && n <= |values|
    ensures KeptFrom(labels, values, round, n, Points(labels, values, round, n), from)
  {
    from := [];
    if n > 0 {
      from := OnlyChangesAreKept(labels, values, round, n - 1);
      if values[n - 1].Some? && (values[n - 1] != LastValue(values, n - 1) || n - 1 == |labels| - 1) {
        from := from + [n - 1];
      }
    }
  }

  /** The value a step line shows at a label: that of its last point at or before it. */
  function Decode(points: seq<Point>, minute: int): Option<real> {
    if points == [] then None
    else if points[|points| - 1].minute <= minute then Some(points[|points| - 1].value)
    else Decode(points[..|points| - 1], minute)
  }

  function Rounded(value: Option<real>, round: real -> real): Option<real> {
    if value.Some? then Some(round(value.value)) else None
  }

  /** When the first `n` labels lie at or before a label and the others after it, the step line
      shows there the last value of those `n` bars, rounded. */
  lemma {:induction false} DecodeShowsLastValue(labels: seq<int>, values: seq<Option<real>>, round: real -> real,
                                                n: nat, m: nat, minute: int)
    requires n <= m <= |labels| && m <= |values|
    requires forall k :: 0 <= k < n ==> labels[k] <= minute
    requires forall k :: n <= k < m ==> labels[k] > minute
    ensures Decode(Points(labels, values, round, m), minute) == Rounded(LastValue(values, n), round)
    decreases m
  {
    if n < m {
      DecodeShowsLastValue(labels, values, round, n, m - 1, minute);
      var kept := Points(labels, values, round, m - 1);
      assert (kept + [Point(labels[m - 1], 0.0)])[..|kept|] == kept;
      if values[m - 1].Some? {
        assert (kept + [Point(labels[m - 1], round(values[m - 1].value))])[..|kept|] == kept;
      }
    } else if m > 0 {
      DecodeShowsLastValue(labels, values, round, m - 1, m - 1, minute);
    }
  }

  /** The published line gives back every value of the series up to its rounding, exactly when
      the bars that share a label with a later bar do not disagree with it. */
  lemma {:induction false} StepLineRestores(labels: seq<int>, values: seq<Option<real>>, round: real -> real, i: nat,
                                            last: nat)
    requires |labels| == |values| && i <= last < |labels|
    requires forall k, l :: 0 <= k < l < |labels| ==> labels[k] <= labels[l]
    requires labels[last] == labels[i] && (last + 1 < |labels| ==> labels[last + 1] > labels[i])
    requires values[i].Some?
    ensures Decode(Points(labels, values, round, |labels|), labels[i]) == Rounded(values[i], round) <==>
            Rounded(LastValue(values, last + 1), round) == Rounded(values[i], round)
  {
    DecodeShowsLastValue(labels, values, round, last + 1, |labels|, labels[i]);
  }

  /** The published line gives back every value present, rounded. */
  ghost predicate Restores(labels: seq<int>, values: seq<Option<real>>, round: real -> real)
    requires |labels| == |values|
  {
    forall i :: 0 <= i < |labels| && values[i].Some? ==>
      Decode(Points(labels, values, round, |labels|), labels[i]) == Some(round(values[i].value))
  }

  /** Bars with the same label show the same value, rounded. */
  ghost predicate LabelsAgree(labels: seq<int>, values: seq<Option<real>>, round: real -> real)
    requires |labels| == |values|
  {
    forall i, j :: 0 <= i <= j < |labels| && labels[i] == labels[j] && values[i].Some? && values[j].Some? ==>
      round(values[i].value) == round(values[j].value)
  }

  lemma {:induction false} LastOfLabel(labels: seq<int>, i: nat) returns (last: nat)
    requires i < |labels| && forall k, l :: 0 <= k < l < |labels| ==> labels[k] <= labels[l]
    ensures i <= last < |labels| && labels[last] == labels[i] && (last + 1 < |labels| ==> labels[last + 1] > labels[i])
  {
    last := i;
    while last + 1 < |labels| && labels[last + 1] == labels[i]
      invariant i <= last < |labels| && labels[last] == labels[i]
    {
      last := last + 1;
    }
  }

  /** The last value is that of some bar, none before which it passes over. */
  lemma {:induction false} LastValueOrigin(values: seq<Option<real>>, i: nat, n: nat) returns (k: nat)
    requires i < n <= |values| && values[i].Some?
    ensures i <= k < n && values[k].Some? && LastValue(values, n) == values[k]
  {
    if values[n - 1].Some? {
      k := n - 1;
    } else {
      k := LastValueOrigin(values, i, n - 1);
    }
  }

  /** The published line gives back a whole series if and only if bars with the same label agree. */
  lemma {:induction false} SeriesRestoredIff(labels: seq<int>, values: seq<Option<real>>, round: real -> real)
    requires |labels| == |values| && forall k, l :: 0 <= k < l < |labels| ==> labels[k] <= labels[l]
    ensures Restores(labels, values, round) <==> LabelsAgree(labels, values, round)
  {
    if LabelsAgree(labels, values, round) {
      forall i | 0 <= i < |labels| && values[i].Some?
        ensures Decode(Points(labels, values, round, |labels|), labels[i]) == Some(round(values[i].value))
      {
        var last := LastOfLabel(labels, i);
        var k := LastValueOrigin(values, i, last + 1);
        assert labels[i] <= labels[k] <= labels[last];
        StepLineRestores(labels, values, round, i, last);
      }
    }
  }

  /** Two bars of one minute: the first is not given back. Fetched bars have their times cut to the minute,
      and the midday filter stores bars that then coincide side by side
      (src/infrastructure/market_data/get_intraday_bars.py:114-126,
       src/application/midday_filtering_usecase.py:412-422). */
  lemma BarsOfOneMinuteAreLost(minute: int, a: real, b: real, round: real -> real)
    requires round(a) != round(b)
    ensures !Restores([minute, minute], [Some(a), Some(b)], round)
    ensures Decode(Points([minute, minute], [Some(a), Some(b)], round, 2), minute) == Some(round(b))
  {
    var labels, values := [minute, minute], [Some(a), Some(b)];
    assert labels[0] == labels[1] && values[0].Some? && values[1].Some?;
    SeriesRestoredIff(labels, values, round);
    DecodeShowsLastValue(labels, values, round, 2, 2, minute);
  }

  /** With one bar a minute, the published trailing line is the drawn one, rounded: absent before
      the line starts and equal to it from there on. */
  lemma {:induction false} PublishedTrailingLine(labels: seq<int>, lines: TradeLines, prices: seq<real>,
                                                 round: real -> real, i: nat)
    requires |labels| == |prices| && i < |labels|
    requires forall k, l :: 0 <= k < l < |labels| ==> labels[k] < labels[l]
    ensures Decode(Points(labels, Trailing(lines, prices), round, |labels|), labels[i]) ==
            Rounded(TrailingAt(lines, prices, i), round)
  {
    var drawn := Trailing(lines, prices);
    DecodeShowsLastValue(labels, drawn, round, i + 1, |labels|, labels[i]);
    if drawn[i].None? {
      forall k | 0 <= k <= i ensures drawn[k].None? {
        if drawn[k].Some? {
          TrailingNeverFalls(lines, prices, k, i);
        }
      }
      NoValueYet(drawn, i + 1);
    }
    assert LastValue(drawn, i + 1) == drawn[i] == TrailingAt(lines, prices, i);
  }

  lemma {:induction false} NoValueYet(values: seq<Option<real>>, n: nat)
    requires n <= |values| && forall k :: 0 <= k < n ==> values[k].None?
    ensures LastValue(values, n).None?
  {
    if n > 0 {
      NoValueYet(values, n - 1);
    }
  }
}
