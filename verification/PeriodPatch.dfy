/** Replacement of the profit totals in weekly and monthly reports
    (scripts/ops/recompute_daily_reports.py, `patch_period_report` and `build_plan`): each day's row gets its new
    total, the sum and the comparison with the previous period follow, and then every comparison is brought in
    line with the report of the period it compares with. What cannot be read raises. */
module PeriodPatch {
  import opened Common
  import opened ReportDiff

  const TOLERANCE: real := 0.005

  /** `float` of a text and `str` of a value, which Python's runtime provides. */
  datatype Runtime = Runtime(parse: string -> Option<real>, show: Json -> string)

  /** Rounding to two decimals, ties to the even cent. */
  function Round2(x: real): real {
    var cents := (x * 100.0).Floor;
    var rest := x * 100.0 - cents as real;
    (if rest > 0.5 || (rest == 0.5 && cents % 2 == 1) then cents + 1 else cents) as real / 100.0
  }

  lemma RoundingStaysWithinTolerance(x: real)
    ensures Abs(x - Round2(x)) <= TOLERANCE
  {}

  function Money(x: real): Json {
    Number(x, Float)
  }

  predicate Falsy(j: Json) {
    j == Null || (j.Number? && j.value == 0.0) || j == Text("") || j == List([]) || j == Dict(map[])
  }

  /** What Python takes for false: nothing, a zero and whatever is empty. */
  lemma FalsyIff(j: Json)
    ensures Falsy(j) <==>
      match j
      case Null => true
      case Number(value, _) => value == 0.0
      case Text(text) => |text| == 0
      case List(items) => |items| == 0
      case Dict(fields) => |fields| == 0
  {}

  /** `float(row.get(key) or 0)` */
  function NumberAt(rt: Runtime, fields: map<string, Json>, key: string): Result<real> {
    if key !in fields || Falsy(fields[key]) then Ok(0.0)
    else
      match fields[key]
      case Number(value, _) => Ok(value)
      case Text(text) => (var parsed := rt.parse(text); if parsed.Some? then Ok(parsed.value) else Raised)
      case _ => Raised
  }

  /** The sum of the profit totals of the rows. */
  function SumOfRows(rt: Runtime, rows: seq<Json>): Result<real> {
    if rows == [] then Ok(0.0)
    else
      var rest, last := SumOfRows(rt, rows[..|rows| - 1]), rows[|rows| - 1];
      if rest.Raised? || !last.Dict? then Raised
      else
        var total := NumberAt(rt, last.fields, PROFIT);
        if total.Raised? then Raised else Ok(rest.value + total.value)
  }

  /** The profit totals of rows that can be read. */
  ghost predicate AreTotals(rt: Runtime, rows: seq<Json>, totals: seq<real>) {
    |totals| == |rows| && forall i :: 0 <= i < |rows| ==>
      rows[i].Dict? && NumberAt(rt, rows[i].fields, PROFIT) == Ok(totals[i])
  }

  /** They are added up. */
  lemma {:induction false} SumAddsTotals(rt: Runtime, rows: seq<Json>, totals: seq<real>)
    requires AreTotals(rt, rows, totals)
    ensures SumOfRows(rt, rows) == Ok(Sum(totals))
  {
    if rows != [] {
      var n := |rows| - 1;
      assert AreTotals(rt, rows[..n], totals[..n]);
      SumAddsTotals(rt, rows[..n], totals[..n]);
    }
  }

  /** Comparison of texts by code points. */
  predicate AtMost(a: string, b: string) {
    a == "" || (b != "" && (a[0] < b[0] || (a[0] == b[0] && AtMost(a[1..], b[1..]))))
  }

  /** The texts agree up to some place, where the first ends or goes on with the smaller character. */
  lemma {:induction false} AtMostIff(a: string, b: string)
    ensures AtMost(a, b) <==> exists k :: EndsOrSmaller(a, b, k)
  {
    if a == "" {
      assert EndsOrSmaller(a, b, 0);
    } else if b != "" {
      if a[0] < b[0] {
        assert EndsOrSmaller(a, b, 0);
      } else if a[0] == b[0] {
        AtMostIff(a[1..], b[1..]);
        if AtMost(a, b) {
          var k: nat :| EndsOrSmaller(a[1..], b[1..], k);
          assert a[..k + 1] == [a[0]] + a[1..][..k] && b[..k + 1] == [b[0]] + b[1..][..k];
          assert EndsOrSmaller(a, b, k + 1);
        } else {
          forall k: nat ensures !EndsOrSmaller(a, b, k) {
            TailEndsOrSmaller(a, b, k);
          }
        }
      }
    }
  }

  lemma TailEndsOrSmaller(a: string, b: string, k: nat)
    requires a != "" && b != "" && a[0] == b[0]
    ensures EndsOrSmaller(a, b, k) ==> k > 0 && EndsOrSmaller(a[1..], b[1..], k - 1)
  {
    if EndsOrSmaller(a, b, k) && k > 0 {
      assert a[1..][..k - 1] == a[..k][1..] && b[1..][..k - 1] == b[..k][1..];
    }
  }

  ghost predicate EndsOrSmaller(a: string, b: string, k: nat) {
    k <= |a| && k <= |b| && a[..k] == b[..k] && (k == |a| || (k < |b| && a[k] < b[k]))
  }

  /** `start <= day <= end`, which raises when a bound it compares is no text. */
  function Within(start: Json, day: string, end: Json): Result<bool> {
    if !start.Text? then Raised
    else if !AtMost(start.text, day) then Ok(false)
    else if !end.Text? then Raised
    else Ok(AtMost(day, end.text))
  }

  /** The first ten characters of a row's date as text. */
  function DayOfRow(rt: Runtime, row: Json): string {
    var text := rt.show(if row.Dict? && "date" in row.fields then row.fields["date"] else Null);
    if |text| <= 10 then text else text[..10]
  }

  /** That is the text itself up to ten characters, and its first ten beyond. */
  lemma DayOfRowIsPrefix(rt: Runtime, fields: map<string, Json>)
    requires "date" in fields
    ensures
      var day, text := DayOfRow(rt, Dict(fields)), rt.show(fields["date"]);
      day <= text && (|day| == 10 || (|day| < 10 && day == text))
  {}

  /** The first row of a day. */
  function RowOf(rt: Runtime, rows: seq<Json>, day: string): (r: Option<nat>)
    ensures r.Some? ==> r.value < |rows| && DayOfRow(rt, rows[r.value]) == day
    ensures forall i :: 0 <= i < (if r.Some? then r.value else |rows|) ==> DayOfRow(rt, rows[i]) != day
  {
    if rows == [] then None
    else
      var rest := rows[..|rows| - 1];
      var earlier := RowOf(rt, rest, day);
      assert forall i :: 0 <= i < |rest| ==> rest[i] == rows[i];
      if earlier.Some? then earlier
      else if DayOfRow(rt, rows[|rows| - 1]) == day then Some(|rows| - 1)
      else None
  }

  function WithTotal(dict: Json, total: real): Json
    requires dict.Dict?
  {
    Dict(dict.fields[PROFIT := Money(total)])
  }

  function WithField(dict: Json, key: string, value: Json): Json
    requires dict.Dict?
  {
    Dict(dict.fields[key := value])
  }

  // ---------------------------------------------------------------- what a replacement keeps

  lemma TotalsMayBeReplaced(a: Json, b: Json, total: real)
    requires SameExceptTotals(a, b) && b.Dict?
    ensures SameExceptTotals(a, WithTotal(b, total))
  {}

  lemma FieldsMayBeReplaced(a: Json, b: Json, key: string, value: Json)
    requires SameExceptTotals(a, b) && a.Dict? && key in a.fields && key in b.fields && key != PROFIT
    requires SameExceptTotals(a.fields[key], value)
    ensures SameExceptTotals(a, WithField(b, key, value))
  {}

  /** Related values have the same shape. */
  lemma SameShape(a: Json, b: Json)
    requires SameExceptTotals(a, b)
    ensures (a.Dict? <==> b.Dict?) && (a.List? <==> b.List?)
    ensures a.Dict? ==> forall k :: k != PROFIT ==> (k in a.fields <==> k in b.fields)
  {}

  // ---------------------------------------------------------------- the daily rows

  datatype DayTotal = DayTotal(day: string, total: real)

  ghost predicate UniqueDays(totals: seq<DayTotal>) {
    forall i, j :: 0 <= i < j < |totals| ==> totals[i].day != totals[j].day
  }

  datatype Problem = TotalsDiffer | MissingRow(day: string)

  ghost predicate AllDicts(rows: seq<Json>) {
    forall i :: 0 <= i < |rows| ==> rows[i].Dict?
  }

  /** The total of a day within the period, when row `i` is the first of that day; the last one given counts. */
  function TotalFor(rt: Runtime, rows: seq<Json>, totals: seq<DayTotal>, start: Json, end: Json, i: nat): Option<real> {
    if totals == [] then None
    else
      var last := totals[|totals| - 1];
      if Within(start, last.day, end) == Ok(true) && RowOf(rt, rows, last.day) == Some(i) then Some(last.total)
      else TotalFor(rt, rows, totals[..|totals| - 1], start, end, i)
  }

  /** Each row has the total given for it, if any, and nothing else of a row has changed. */
  ghost predicate Replaced(rt: Runtime, before: seq<Json>, after: seq<Json>, totals: seq<DayTotal>, start: Json,
                           end: Json) {
    && |after| == |before| && AllDicts(before)
    && forall i :: 0 <= i < |before| ==>
         var total := TotalFor(rt, before, totals, start, end, i);
         after[i] == if total.Some? then WithTotal(before[i], total.value) else before[i]
  }

  /** Notes a day of the period that has no row. */
  function Noter(rt: Runtime, rows: seq<Json>, start: Json, end: Json): (seq<Problem>, DayTotal) -> seq<Problem> {
    (problems: seq<Problem>, t: DayTotal) =>
      if Within(start, t.day, end) == Ok(true) && RowOf(rt, rows, t.day).None? then problems + [MissingRow(t.day)]
        else problems
  }

  function Missing(rt: Runtime, rows: seq<Json>, totals: seq<DayTotal>, start: Json, end: Json): seq<Problem> {
    Fold(Noter(rt, rows, start, end), [], totals)
  }

  /** A day is noted exactly when it has a total, lies in the period and has no row. */
  lemma {:induction false} MissingIff(rt: Runtime, rows: seq<Json>, totals: seq<DayTotal>, start: Json, end: Json,
                                      p: Problem)
    ensures p in Missing(rt, rows, totals, start, end) <==>
      exists n :: 0 <= n < |totals| && p == MissingRow(totals[n].day)
        && Within(start, totals[n].day, end) == Ok(true) && forall i :: 0 <= i < |rows| ==>
          DayOfRow(rt, rows[i]) != totals[n].day
  {
    if totals != [] {
      var n := |totals| - 1;
      MissingIff(rt, rows, totals[..n], start, end, p);
      var problems := Missing(rt, rows, totals[..n], start, end);
      assert Missing(rt, rows, totals, start, end) == Noter(rt, rows, start, end)(problems, totals[n]);
    }
  }

  /** Row `i` is the first of the day of `t`, which lies in the period. */
  ghost predicate IsRowOf(rt: Runtime, rows: seq<Json>, t: DayTotal, start: Json, end: Json, i: nat)
    requires i < |rows|
  {
    && Within(start, t.day, end) == Ok(true) && DayOfRow(rt, rows[i]) == t.day
    && forall k :: 0 <= k < i ==> DayOfRow(rt, rows[k]) != t.day
  }

  /** When each day has one total, the first row of a day of the period receives it, and no other row changes. */
  lemma {:induction false} TotalForIff(rt: Runtime, rows: seq<Json>, totals: seq<DayTotal>, start: Json, end: Json,
                                       i: nat, total: real)
    requires UniqueDays(totals) && i < |rows|
    ensures TotalFor(rt, rows, totals, start, end, i) == Some(total) <==>
            exists t :: t in totals && t.total == total && IsRowOf(rt, rows, t, start, end, i)
  {
    if totals != [] {
      var rest, last := totals[..|totals| - 1], totals[|totals| - 1];
      TotalForIff(rt, rows, rest, start, end, i, total);
      FirstRowIff(rt, rows, last.day, i);
      assert forall t :: t in totals <==> t in rest || t == last;
      if IsRowOf(rt, rows, last, start, end, i) {
        forall t | t in totals && IsRowOf(rt, rows, t, start, end, i) ensures t == last {}
      }
    }
  }

  lemma FirstRowIff(rt: Runtime, rows: seq<Json>, day: string, i: nat)
    requires i < |rows|
    ensures RowOf(rt, rows, day) == Some(i) <==>
      DayOfRow(rt, rows[i]) == day && forall k :: 0 <= k < i ==> DayOfRow(rt, rows[k]) != day
  {}

  lemma {:induction false} SameDaysSameRow(rt: Runtime, before: seq<Json>, after: seq<Json>, day: string)
    requires |before| == |after| && forall i :: 0 <= i < |before| ==> DayOfRow(rt, after[i]) == DayOfRow(rt, before[i])
    ensures RowOf(rt, after, day) == RowOf(rt, before, day)
  {
    if before != [] {
      SameDaysSameRow(rt, before[..|before| - 1], after[..|after| - 1], day);
    }
  }

  lemma ReplacedKeepsDays(rt: Runtime, before: seq<Json>, after: seq<Json>, totals: seq<DayTotal>, start: Json,
                          end: Json)
    requires Replaced(rt, before, after, totals, start, end)
    ensures AllDicts(after) && forall i :: 0 <= i < |before| ==> DayOfRow(rt, after[i]) == DayOfRow(rt, before[i])
  {}

  lemma ReplacedDiffersInTotals(rt: Runtime, before: seq<Json>, after: seq<Json>, totals: seq<DayTotal>, start: Json,
                                end: Json)
    requires Replaced(rt, before, after, totals, start, end)
    ensures SameExceptTotals(List(before), List(after))
  {
    forall i | 0 <= i < |before| ensures SameExceptTotals(before[i], after[i]) {
      SameAsItself(before[i]);
      var total := TotalFor(rt, before, totals, start, end, i);
      if total.Some? {
        TotalsMayBeReplaced(before[i], before[i], total.value);
      }
    }
  }

  lemma TotalsOverride(dict: Json, a: real, b: real)
    requires dict.Dict?
    ensures WithTotal(WithTotal(dict, a), b) == WithTotal(dict, b)
  {}

  /** The rows with a new total in the first row of a day. */
  function SetRow(rt: Runtime, rows: seq<Json>, day: string, total: real): seq<Json> {
    var row := RowOf(rt, rows, day);
    if row.Some? && rows[row.value].Dict? then rows[row.value := WithTotal(rows[row.value], total)] else rows
  }

  lemma ReplacedExtends(rt: Runtime, before: seq<Json>, after: seq<Json>, totals: seq<DayTotal>, start: Json, end: Json,
                        n: nat)
    requires n < |totals| && Replaced(rt, before, after, totals[..n], start, end)
    ensures RowOf(rt, after, totals[n].day) == RowOf(rt, before, totals[n].day)
    ensures
      var next := if Within(start, totals[n].day, end) == Ok(true)
        then SetRow(rt, after, totals[n].day, totals[n].total) else after;
      Replaced(rt, before, next, totals[..n + 1], start, end)
  {
    assert totals[..n + 1][..n] == totals[..n];
    ReplacedKeepsDays(rt, before, after, totals[..n], start, end);
    SameDaysSameRow(rt, before, after, totals[n].day);
    var row := RowOf(rt, before, totals[n].day);
    if row.Some? {
      var earlier := TotalFor(rt, before, totals[..n], start, end, row.value);
      if earlier.Some? {
        TotalsOverride(before[row.value], earlier.value, totals[n].total);
      }
    }
  }

  function RowSetter(rt: Runtime, start: Json, end: Json): (seq<Json>, DayTotal) -> seq<Json> {
    (rows: seq<Json>, t: DayTotal) => if Within(start, t.day, end) == Ok(true) then SetRow(rt, rows, t.day, t.total)
      else rows
  }

  lemma {:induction false} SettingRowsReplacesThem(rt: Runtime, rows: seq<Json>, totals: seq<DayTotal>, start: Json,
                                                   end: Json)
    requires AllDicts(rows)
    ensures Replaced(rt, rows, Fold(RowSetter(rt, start, end), rows, totals), totals, start, end)
    ensures forall day :: RowOf(rt, Fold(RowSetter(rt, start, end), rows, totals), day) == RowOf(rt, rows, day)
  {
    if totals != [] {
      var n := |totals| - 1;
      SettingRowsReplacesThem(rt, rows, totals[..n], start, end);
      ReplacedExtends(rt, rows, Fold(RowSetter(rt, start, end), rows, totals[..n]), totals, start, end, n);
      assert totals[..n + 1] == totals;
    }
    var after := Fold(RowSetter(rt, start, end), rows, totals);
    ReplacedKeepsDays(rt, rows, after, totals, start, end);
    forall day ensures RowOf(rt, after, day) == RowOf(rt, rows, day) {
      SameDaysSameRow(rt, rows, after, day);
    }
  }

  lemma SettingRowsKeepsDays(rt: Runtime, rows: seq<Json>, totals: seq<DayTotal>, start: Json, end: Json, day: string)
    requires AllDicts(rows)
    ensures RowOf(rt, Fold(RowSetter(rt, start, end), rows, totals), day) == RowOf(rt, rows, day)
  {
    SettingRowsReplacesThem(rt, rows, totals, start, end);
  }

  method ReplaceRow(rt: Runtime, ghost before: seq<Json>, rows: seq<Json>, problems: seq<Problem>, t: DayTotal,
                    start: Json, end: Json)
    returns (r: Result<seq<Json>>, noted: seq<Problem>)
    requires RowOf(rt, rows, t.day) == RowOf(rt, before, t.day)
    ensures r.Raised? <==> Within(start, t.day, end).Raised?
    ensures r.Ok? ==>
      r.value == RowSetter(rt, start, end)(rows, t) && noted == Noter(rt, before, start, end)(problems, t)
  {
    noted := problems;
    var within := Within(start, t.day, end);
    if within.Raised? {
      return Raised, noted;
    }
    if within.value && RowOf(rt, rows, t.day).None? {
      noted := noted + [MissingRow(t.day)];
    }
    r := Ok(if within.value then SetRow(rt, rows, t.day, t.total) else rows);
  }

  /** Every day can be compared with the bounds of the period. */
  predicate Comparable(totals: seq<DayTotal>, start: Json, end: Json) {
    totals == [] || (Comparable(totals[..|totals| - 1], start, end) && Within(start, totals[|totals| - 1].day, end).Ok?)
  }

  lemma {:induction false} ComparableTurn(totals: seq<DayTotal>, start: Json, end: Json, n: nat)
    requires n < |totals|
    ensures Comparable(totals[..n + 1], start, end) <==>
      Comparable(totals[..n], start, end) && Within(start, totals[n].day, end).Ok?
    ensures Comparable(totals, start, end) ==> Comparable(totals[..n + 1], start, end)
  {
    assert totals[..n + 1][..n] == totals[..n];
    if n + 1 < |totals| {
      ComparableTurn(totals[..|totals| - 1], start, end, n);
      assert totals[..|totals| - 1][..n + 1] == totals[..n + 1];
    } else {
      assert totals[..n + 1] == totals;
    }
  }

  method SetRows(rt: Runtime, rows: seq<Json>, totals: seq<DayTotal>, start: Json, end: Json)
    returns (r: Result<seq<Json>>, problems: seq<Problem>)
    requires AllDicts(rows)
    ensures r.Ok? <==> Comparable(totals, start, end)
    ensures r.Ok? ==> r.value == Fold(RowSetter(rt, start, end), rows, totals)
    ensures r.Ok? ==> problems == Missing(rt, rows, totals, start, end)
  {
    var updated := rows;
    problems := [];
    ghost var setter, noter := RowSetter(rt, start, end), Noter(rt, rows, start, end);
    for n := 0 to |totals|
      invariant updated == Fold(setter, rows, totals[..n])
      invariant problems == Fold(noter, [], totals[..n])
      invariant Comparable(totals[..n], start, end)
    {
      SettingRowsKeepsDays(rt, rows, totals[..n], start, end, totals[n].day);
      ComparableTurn(totals, start, end, n);
      FoldTurn(setter, rows, totals, n);
      FoldTurn(noter, [], totals, n);
      var next, noted := ReplaceRow(rt, rows, updated, problems, totals[n], start, end);
      if next.Raised? {
        return Raised, problems;
      }
      updated, problems := next.value, noted;
    }
    assert totals[..|totals|] == totals;
    r := Ok(updated);
  }

  /** Gives every day of the period its total and notes the days without a row. */
  method ReplaceRows(rt: Runtime, rows: seq<Json>, totals: seq<DayTotal>, start: Json, end: Json)
    returns (r: Result<seq<Json>>, problems: seq<Problem>)
    requires AllDicts(rows)
    ensures r.Ok? <==> Comparable(totals, start, end)
    ensures r.Ok? ==>
      Replaced(rt, rows, r.value, totals, start, end) && problems == Missing(rt, rows, totals, start, end)
  {
    SettingRowsReplacesThem(rt, rows, totals, start, end);
    r, problems := SetRows(rt, rows, totals, start, end);
  }

  // ---------------------------------------------------------------- one report

  /** `daily.get("reports") or []`, whose items must be objects to be summed. */
  function RowsOf(daily: map<string, Json>): Result<seq<Json>> {
    if "reports" !in daily || Falsy(daily["reports"]) then Ok([])
    else if daily["reports"].List? then Ok(daily["reports"].items)
    else Raised
  }

  lemma {:induction false} SummedRowsAreDicts(rt: Runtime, rows: seq<Json>)
    requires SumOfRows(rt, rows).Ok?
    ensures AllDicts(rows)
  {
    if rows != [] {
      SummedRowsAreDicts(rt, rows[..|rows| - 1]);
    }
  }

  predicate HasDict(j: Json, key: string) {
    j.Dict? && key in j.fields && j.fields[key].Dict?
  }

  predicate HasPeriod(j: Json) {
    HasDict(j, "period") && "start" in j.fields["period"].fields && "end" in j.fields["period"].fields
  }

  function StartOf(j: Json): Json
    requires HasPeriod(j)
  {
    j.fields["period"].fields["start"]
  }

  function EndOf(j: Json): Json
    requires HasPeriod(j)
  {
    j.fields["period"].fields["end"]
  }

  /** The stored total of the days is the rounded sum of their rows. */
  ghost predicate DailyAddsUp(rt: Runtime, daily: Json) {
    && daily.Dict? && PROFIT in daily.fields && RowsOf(daily.fields).Ok?
    && SumOfRows(rt, RowsOf(daily.fields).value).Ok?
    && daily.fields[PROFIT] == Money(Round2(SumOfRows(rt, RowsOf(daily.fields).value).value))
  }

  /** The rows and the stored total of the days can be read as numbers. */
  predicate DailyReadable(rt: Runtime, daily: Json) {
    && daily.Dict? && RowsOf(daily.fields).Ok? && SumOfRows(rt, RowsOf(daily.fields).value).Ok?
    && NumberAt(rt, daily.fields, PROFIT).Ok?
  }

  /** What is noted of the days: a stored total that is not the sum of the rows, and each day of the period
      without a row. */
  function DailyProblems(rt: Runtime, daily: Json, totals: seq<DayTotal>, start: Json, end: Json): seq<Problem>
    requires DailyReadable(rt, daily)
  {
    var rows := RowsOf(daily.fields).value;
    (if Abs(Round2(SumOfRows(rt, rows).value) - NumberAt(rt, daily.fields, PROFIT).value) > TOLERANCE
     then [TotalsDiffer] else []) +
    Missing(rt, rows, totals, start, end)
  }

  /** It is noted that the totals differ exactly when the stored one is not within the tolerance of the rounded sum of the
      rows, and of a day exactly when it has no row. */
  lemma DailyProblemsIff(rt: Runtime, daily: Json, totals: seq<DayTotal>, start: Json, end: Json, sums: seq<real>,
                         stored: real, rounded: real)
    requires DailyReadable(rt, daily) && AreTotals(rt, RowsOf(daily.fields).value, sums)
    requires NumberAt(rt, daily.fields, PROFIT) == Ok(stored) && rounded == Round2(Sum(sums))
    ensures
      var rows, problems := RowsOf(daily.fields).value, DailyProblems(rt, daily, totals, start, end);
      && (TotalsDiffer in problems <==> !(stored - TOLERANCE <= rounded <= stored + TOLERANCE))
      && forall day :: MissingRow(day) in problems <==>
           exists t :: t in totals && t.day == day && Within(start, day, end) == Ok(true)
                       && forall i :: 0 <= i < |rows| ==> DayOfRow(rt, rows[i]) != day
  {
    var rows := RowsOf(daily.fields).value;
    SumAddsTotals(rt, rows, sums);
    MissingIff(rt, rows, totals, start, end, TotalsDiffer);
    forall day ensures MissingRow(day) in Missing(rt, rows, totals, start, end) <==>
      exists t :: t in totals && t.day == day && Within(start, day, end) == Ok(true)
                  && forall i :: 0 <= i < |rows| ==> DayOfRow(rt, rows[i]) != day
    {
      MissingIff(rt, rows, totals, start, end, MissingRow(day));
    }
  }

  /** The days of a report patched: the rows have their totals, the sum is stored, and the rest is as it was. */
  ghost predicate DailyPatched(rt: Runtime, daily: Json, after: Json, totals: seq<DayTotal>, start: Json, end: Json)
    requires DailyReadable(rt, daily)
  {
    && after.Dict? && RowsOf(after.fields).Ok? && DailyAddsUp(rt, after)
    && Replaced(rt, RowsOf(daily.fields).value, RowsOf(after.fields).value, totals, start, end)
    && forall k :: k in daily.fields && k != "reports" && k != PROFIT ==>
         k in after.fields && after.fields[k] == daily.fields[k]
  }

  predicate Summable(rt: Runtime, row: Json) {
    row.Dict? && NumberAt(rt, row.fields, PROFIT).Ok?
  }

  lemma {:induction false} SumIsReadableIff(rt: Runtime, rows: seq<Json>)
    ensures SumOfRows(rt, rows).Ok? <==> forall i :: 0 <= i < |rows| ==> Summable(rt, rows[i])
  {
    if rows != [] {
      SumIsReadableIff(rt, rows[..|rows| - 1]);
    }
  }

  lemma TotalIsReadable(rt: Runtime, dict: Json, total: real)
    requires dict.Dict?
    ensures Summable(rt, WithTotal(dict, total))
  {}

  /** Rows that can be summed still can be with new totals. */
  lemma ReplacedIsReadable(rt: Runtime, before: seq<Json>, after: seq<Json>, totals: seq<DayTotal>, start: Json,
                           end: Json)
    requires Replaced(rt, before, after, totals, start, end) && SumOfRows(rt, before).Ok?
    ensures SumOfRows(rt, after).Ok?
  {
    SumIsReadableIff(rt, before);
    forall i | 0 <= i < |after| ensures Summable(rt, after[i]) {
      var total := TotalFor(rt, before, totals, start, end, i);
      if total.Some? {
        TotalIsReadable(rt, before[i], total.value);
      }
    }
    SumIsReadableIff(rt, after);
  }

  method PatchDaily(rt: Runtime, daily: Json, period: Json, totals: seq<DayTotal>)
    returns (r: Result<Json>, problems: seq<Problem>)
    requires daily.Dict?
    ensures r.Ok? <==>
      DailyReadable(rt, daily) && HasPeriod(period) && Comparable(totals, StartOf(period), EndOf(period))
    ensures r.Ok? ==> SameExceptTotals(daily, r.value)
    ensures r.Ok? ==> DailyPatched(rt, daily, r.value, totals, StartOf(period), EndOf(period))
    ensures r.Ok? ==> problems == DailyProblems(rt, daily, totals, StartOf(period), EndOf(period))
  {
    problems := [];
    var rows := RowsOf(daily.fields);
    if rows.Raised? {
      return Raised, problems;
    }
    var sum, stored := SumOfRows(rt, rows.value), NumberAt(rt, daily.fields, PROFIT);
    if sum.Raised? || stored.Raised? || !HasPeriod(period) {
      return Raised, problems;
    }
    if Abs(Round2(sum.value) - stored.value) > TOLERANCE {
      problems := [TotalsDiffer];
    }
    SummedRowsAreDicts(rt, rows.value);
    var replaced, missing := ReplaceRows(rt, rows.value, totals, StartOf(period), EndOf(period));
    if replaced.Raised? {
      return Raised, problems;
    }
    problems := problems + missing;
    ReplacedIsReadable(rt, rows.value, replaced.value, totals, StartOf(period), EndOf(period));
    var total := Round2(SumOfRows(rt, replaced.value).value);
    r := Ok(DailyWith(daily, replaced.value, total));
    ReplacedDiffersInTotals(rt, rows.value, replaced.value, totals, StartOf(period), EndOf(period));
    DailyWithIsRelated(daily, replaced.value, total);
  }

  /** The object of the days with its rows and its total. */
  function DailyWith(daily: Json, rows: seq<Json>, total: real): Json
    requires daily.Dict?
  {
    WithTotal(if rows == [] then daily else WithField(daily, "reports", List(rows)), total)
  }

  lemma DailyWithIsRelated(daily: Json, rows: seq<Json>, total: real)
    requires daily.Dict? && RowsOf(daily.fields).Ok? && SameExceptTotals(List(RowsOf(daily.fields).value), List(rows))
    ensures SameExceptTotals(daily, DailyWith(daily, rows, total))
    ensures
      var after := DailyWith(daily, rows, total).fields;
      && RowsOf(after) == Ok(rows) && PROFIT in after && after[PROFIT] == Money(total)
      && forall k :: k in daily.fields && k != "reports" && k != PROFIT ==> k in after && after[k] == daily.fields[k]
  {
    SameAsItself(daily);
    if rows == [] {
      TotalsMayBeReplaced(daily, daily, total);
    } else {
      var with := WithField(daily, "reports", List(rows));
      FieldsMayBeReplaced(daily, daily, "reports", List(rows));
      TotalsMayBeReplaced(daily, with, total);
      assert DailyWith(daily, rows, total).fields["reports"] == List(rows);
    }
  }

  /** How much the days of a period have changed. */
  function Delta(totals: seq<DayTotal>, before: map<string, real>, start: Json, end: Json): Result<real> {
    if totals == [] then Ok(0.0)
    else
      var rest, last := Delta(totals[..|totals| - 1], before, start, end), totals[|totals| - 1];
      var within := Within(start, last.day, end);
      if rest.Raised? || within.Raised? then Raised
      else Ok(rest.value + (if within.value then last.total - (if last.day in before then before[last.day] else 0.0)
                            else 0.0))
  }

  /** The stored comparison with the previous period, moved by the changes of its days. */
  function MovedPrevious(rt: Runtime, previous: Json, totals: seq<DayTotal>, before: map<string, real>): Result<Json> {
    if !HasDict(previous, "period") then Ok(previous)
    else if !HasPeriod(previous) then Raised
    else
      var delta := Delta(totals, before, StartOf(previous), EndOf(previous));
      if delta.Raised? then Raised
      else if Abs(delta.value) <= TOLERANCE then Ok(previous)
      else
        var stored := NumberAt(rt, previous.fields, PROFIT);
        if stored.Raised? then Raised else Ok(WithTotal(previous, Round2(stored.value + delta.value)))
  }

  lemma {:induction false} DeltaRaisesIff(totals: seq<DayTotal>, before: map<string, real>, start: Json, end: Json)
    ensures Delta(totals, before, start, end).Ok? <==> Comparable(totals, start, end)
  {
    if totals != [] {
      DeltaRaisesIff(totals[..|totals| - 1], before, start, end);
    }
  }

  /** The stored comparison cannot be moved exactly when its period lacks a bound or has one that a day cannot be
      compared with, or when its days have changed and its total is no number. */
  lemma MovedPreviousRaisesIff(rt: Runtime, previous: Json, totals: seq<DayTotal>, before: map<string, real>)
    ensures MovedPrevious(rt, previous, totals, before).Raised? <==>
      && HasDict(previous, "period")
      && (|| !HasPeriod(previous)
          || !Comparable(totals, StartOf(previous), EndOf(previous))
          || (var delta := Delta(totals, before, StartOf(previous), EndOf(previous));
              delta.Ok? && Abs(delta.value) > TOLERANCE && NumberAt(rt, previous.fields, PROFIT).Raised?))
  {
    if HasPeriod(previous) {
      DeltaRaisesIff(totals, before, StartOf(previous), EndOf(previous));
    }
  }

  lemma MovedPreviousIsRelated(rt: Runtime, previous: Json, totals: seq<DayTotal>, before: map<string, real>)
    ensures
      var moved := MovedPrevious(rt, previous, totals, before);
      moved.Ok? ==> SameExceptTotals(previous, moved.value)
  {
    SameAsItself(previous);
    var moved := MovedPrevious(rt, previous, totals, before);
    if moved.Ok? && moved.value != previous {
      TotalsMayBeReplaced(previous, previous, moved.value.fields[PROFIT].value);
    }
  }

  // ---------------------------------------------------------------- what the previous total becomes

  /** The total given for a day, else the one it has. */
  function NewTotal(totals: seq<DayTotal>, d: DayTotal): real {
    if totals == [] then d.total
    else if totals[|totals| - 1].day == d.day then totals[|totals| - 1].total
    else NewTotal(totals[..|totals| - 1], d)
  }

  /** The days with the totals given put in. */
  function Renewed(days: seq<DayTotal>, totals: seq<DayTotal>): (r: seq<DayTotal>)
    ensures |r| == |days|
  {
    seq(|days|, i requires 0 <= i < |days| => DayTotal(days[i].day, NewTotal(totals, days[i])))
  }

  function TotalOf(days: seq<DayTotal>): real {
    if days == [] then 0.0 else TotalOf(days[..|days| - 1]) + days[|days| - 1].total
  }

  /** The total that a day had before. */
  function OldTotal(before: map<string, real>, day: string): real {
    if day in before then before[day] else 0.0
  }

  ghost predicate DaysWithin(days: seq<DayTotal>, start: Json, end: Json) {
    forall i :: 0 <= i < |days| ==> Within(start, days[i].day, end) == Ok(true)
  }

  /** The day has an entry with its old total. */
  ghost predicate HasOld(days: seq<DayTotal>, day: string, before: map<string, real>) {
    DayTotal(day, OldTotal(before, day)) in days
  }

  /** Each changed day of the period is among the days, with its old total. */
  ghost predicate CoversChanges(days: seq<DayTotal>, totals: seq<DayTotal>, before: map<string, real>, start: Json,
                                end: Json) {
    forall i :: 0 <= i < |totals| && Within(start, totals[i].day, end) == Ok(true) ==>
      HasOld(days, totals[i].day, before)
  }

  /** Day totals of a period that show it as it was: its days, each once, and the changed ones with their old totals. */
  ghost predicate ShowsPeriod(days: seq<DayTotal>, totals: seq<DayTotal>, before: map<string, real>, start: Json,
                              end: Json) {
    UniqueDays(days) && DaysWithin(days, start, end) && CoversChanges(days, totals, before, start, end)
  }

  /** Rounded to cents. */
  ghost predicate RoundedTo(x: real, cents: real) {
    Abs(x - cents) <= TOLERANCE && cents * 100.0 == (cents * 100.0).Floor as real
  }

  lemma RoundsToCents(x: real)
    ensures RoundedTo(x, Round2(x))
    ensures Abs(x - Round2(x)) == TOLERANCE ==> (Round2(x) * 100.0).Floor % 2 == 0
  {}

  lemma {:induction false} TotalWithChange(days: seq<DayTotal>, i: nat, t: DayTotal)
    requires i < |days|
    ensures TotalOf(days[i := t]) == TotalOf(days) - days[i].total + t.total
  {
    var n := |days| - 1;
    if i < n {
      TotalWithChange(days[..n], i, t);
      assert days[i := t][..n] == days[..n][i := t];
    } else {
      assert days[i := t][..n] == days[..n];
    }
  }

  lemma {:induction false} GivenElsewhere(totals: seq<DayTotal>, d: DayTotal)
    requires forall i :: 0 <= i < |totals| ==> totals[i].day != d.day
    ensures NewTotal(totals, d) == d.total
  {
    if totals != [] {
      GivenElsewhere(totals[..|totals| - 1], d);
    }
  }

  lemma RenewedTurn(days: seq<DayTotal>, totals: seq<DayTotal>, t: DayTotal, i: nat)
    requires UniqueDays(days) && i < |days| && days[i].day == t.day
    requires forall k :: 0 <= k < |totals| ==> totals[k].day != t.day
    ensures TotalOf(Renewed(days, totals + [t])) == TotalOf(Renewed(days, totals)) - days[i].total + t.total
  {
    assert (totals + [t])[..|totals|] == totals;
    GivenElsewhere(totals, days[i]);
    assert Renewed(days, totals + [t]) == Renewed(days, totals)[i := t];
    TotalWithChange(Renewed(days, totals), i, t);
  }

  lemma OutsideIsNotRenewed(days: seq<DayTotal>, totals: seq<DayTotal>, t: DayTotal, start: Json, end: Json)
    requires DaysWithin(days, start, end) && Within(start, t.day, end) != Ok(true)
    ensures Renewed(days, totals + [t]) == Renewed(days, totals)
  {
    assert (totals + [t])[..|totals|] == totals;
  }

  lemma NothingIsRenewed(days: seq<DayTotal>)
    ensures Renewed(days, []) == days
  {}

  /** The change of a period is the difference of the sums of its days, with the new totals and as they were. */
  lemma {:induction false} DeltaIsDifference(totals: seq<DayTotal>, before: map<string, real>, start: Json, end: Json,
                                             days: seq<DayTotal>)
    requires UniqueDays(totals) && Comparable(totals, start, end) && ShowsPeriod(days, totals, before, start, end)
    ensures Delta(totals, before, start, end) == Ok(TotalOf(Renewed(days, totals)) - TotalOf(days))
  {
    if totals == [] {
      NothingIsRenewed(days);
    } else {
      var rest, t := totals[..|totals| - 1], totals[|totals| - 1];
      WithoutLast(totals, before, start, end, days);
      DeltaIsDifference(rest, before, start, end, days);
      TotalChanges(days, rest, t, before, start, end);
      DeltaTurn(rest, t, before, start, end);
      assert totals == rest + [t];
    }
  }

  /** What is required of the totals holds without the last one, whose day is not among the others. */
  lemma WithoutLast(totals: seq<DayTotal>, before: map<string, real>, start: Json, end: Json, days: seq<DayTotal>)
    requires totals != [] && UniqueDays(totals) && Comparable(totals, start, end)
    requires ShowsPeriod(days, totals, before, start, end)
    ensures
      var rest, t := totals[..|totals| - 1], totals[|totals| - 1];
      && UniqueDays(rest) && Comparable(rest, start, end) && ShowsPeriod(days, rest, before, start, end)
      && (forall k :: 0 <= k < |rest| ==> rest[k].day != t.day)
      && Within(start, t.day, end).Ok? && (Within(start, t.day, end) == Ok(true) ==> HasOld(days, t.day, before))
  {
    var n := |totals| - 1;
    assert Within(start, totals[n].day, end) == Ok(true) ==> HasOld(days, totals[n].day, before);
  }

  lemma DeltaTurn(rest: seq<DayTotal>, t: DayTotal, before: map<string, real>, start: Json, end: Json)
    requires Delta(rest, before, start, end).Ok? && Within(start, t.day, end).Ok?
    ensures Delta(rest + [t], before, start, end) ==
            Ok(Delta(rest, before, start, end).value
               + (if Within(start, t.day, end) == Ok(true) then t.total - OldTotal(before, t.day) else 0.0))
  {
    assert (rest + [t])[..|rest|] == rest;
  }

  /** One more total given moves the sum by its change when its day is one of the period. */
  lemma TotalChanges(days: seq<DayTotal>, rest: seq<DayTotal>, t: DayTotal, before: map<string, real>, start: Json,
                     end: Json)
    requires UniqueDays(days) && DaysWithin(days, start, end)
    requires forall k :: 0 <= k < |rest| ==> rest[k].day != t.day
    requires Within(start, t.day, end) == Ok(true) ==> HasOld(days, t.day, before)
    ensures TotalOf(Renewed(days, rest + [t])) ==
            TotalOf(Renewed(days, rest))
            + (if Within(start, t.day, end) == Ok(true) then t.total - OldTotal(before, t.day) else 0.0)
  {
    if Within(start, t.day, end) == Ok(true) {
      var i :| 0 <= i < |days| && days[i] == DayTotal(t.day, OldTotal(before, t.day));
      RenewedTurn(days, rest, t, i);
    } else {
      OutsideIsNotRenewed(days, rest, t, start, end);
    }
  }

  /** The stored total of a period follows the days: it is left alone when their sum does not change by more than the
      tolerance, and moved by the change, in whole cents, when it does. So if it was their sum within the tolerance, it
      is their new sum within twice the tolerance. */
  ghost predicate FollowsDays(rt: Runtime, previous: Json, after: Json, totals: seq<DayTotal>, days: seq<DayTotal>)
    requires previous.Dict?
  {
    var was, now := TotalOf(days), TotalOf(Renewed(days, totals));
    var stored := NumberAt(rt, previous.fields, PROFIT);
    && after.Dict? && (Abs(now - was) <= TOLERANCE ==> after == previous)
    && (Abs(now - was) > TOLERANCE ==>
          && stored.Ok? && PROFIT in after.fields && after.fields[PROFIT].Number?
          && RoundedTo(stored.value + (now - was), after.fields[PROFIT].value)
          && after == WithTotal(previous, after.fields[PROFIT].value))
    && (stored.Ok? && Abs(stored.value - was) <= TOLERANCE ==>
          var total := NumberAt(rt, after.fields, PROFIT);
          total.Ok? && Abs(total.value - now) <= 2.0 * TOLERANCE)
  }

  /** The previous period follows any list of its days that has each changed one with its old total. */
  ghost predicate PreviousFollows(rt: Runtime, previous: Json, after: Json, totals: seq<DayTotal>,
                                  before: map<string, real>) {
    if HasDict(previous, "period") then
      && HasPeriod(previous) && Comparable(totals, StartOf(previous), EndOf(previous))
      && (UniqueDays(totals) ==>
            forall days :: ShowsPeriod(days, totals, before, StartOf(previous), EndOf(previous)) ==>
              FollowsDays(rt, previous, after, totals, days))
    else after == previous
  }

  lemma MovedFollowsDays(rt: Runtime, previous: Json, totals: seq<DayTotal>, before: map<string, real>,
                         days: seq<DayTotal>)
    requires HasPeriod(previous) && MovedPrevious(rt, previous, totals, before).Ok?
    requires UniqueDays(totals) && ShowsPeriod(days, totals, before, StartOf(previous), EndOf(previous))
    ensures FollowsDays(rt, previous, MovedPrevious(rt, previous, totals, before).value, totals, days)
  {
    var was, now := TotalOf(days), TotalOf(Renewed(days, totals));
    DeltaRaisesIff(totals, before, StartOf(previous), EndOf(previous));
    DeltaIsDifference(totals, before, StartOf(previous), EndOf(previous), days);
    MovedBy(rt, previous, totals, before, now - was);
    if Abs(now - was) > TOLERANCE {
      ShiftedFollows(rt, previous, totals, days, NumberAt(rt, previous.fields, PROFIT).value, now - was);
    } else {
      KeptFollows(rt, previous, totals, days);
    }
  }

  lemma MovedBy(rt: Runtime, previous: Json, totals: seq<DayTotal>, before: map<string, real>, change: real)
    requires HasPeriod(previous) && MovedPrevious(rt, previous, totals, before).Ok?
    requires Delta(totals, before, StartOf(previous), EndOf(previous)) == Ok(change)
    ensures
      var moved, stored := MovedPrevious(rt, previous, totals, before), NumberAt(rt, previous.fields, PROFIT);
      if Abs(change) <= TOLERANCE then moved == Ok(previous)
      else stored.Ok? && moved == Ok(WithTotal(previous, Round2(stored.value + change)))
  {}

  lemma KeptFollows(rt: Runtime, previous: Json, totals: seq<DayTotal>, days: seq<DayTotal>)
    requires previous.Dict? && Abs(TotalOf(Renewed(days, totals)) - TotalOf(days)) <= TOLERANCE
    ensures FollowsDays(rt, previous, previous, totals, days)
  {}

  lemma ShiftedFollows(rt: Runtime, previous: Json, totals: seq<DayTotal>, days: seq<DayTotal>, stored: real,
                       change: real)
    requires previous.Dict? && NumberAt(rt, previous.fields, PROFIT) == Ok(stored)
    requires change == TotalOf(Renewed(days, totals)) - TotalOf(days) && Abs(change) > TOLERANCE
    ensures FollowsDays(rt, previous, WithTotal(previous, Round2(stored + change)), totals, days)
  {
    RoundsToCents(stored + change);
  }

  lemma MovedFollows(rt: Runtime, previous: Json, totals: seq<DayTotal>, before: map<string, real>)
    requires MovedPrevious(rt, previous, totals, before).Ok?
    ensures PreviousFollows(rt, previous, MovedPrevious(rt, previous, totals, before).value, totals, before)
  {
    if HasDict(previous, "period") && UniqueDays(totals) {
      DeltaRaisesIff(totals, before, StartOf(previous), EndOf(previous));
      forall days | ShowsPeriod(days, totals, before, StartOf(previous), EndOf(previous))
        ensures FollowsDays(rt, previous, MovedPrevious(rt, previous, totals, before).value, totals, days)
      {
        MovedFollowsDays(rt, previous, totals, before, days);
      }
    }
    if HasDict(previous, "period") {
      DeltaRaisesIff(totals, before, StartOf(previous), EndOf(previous));
    }
  }

  /** A comparison patched: the current total is set, the previous one moved, and the rest is as it was. */
  ghost predicate ComparisonPatched(rt: Runtime, comparison: Json, after: Json, total: real, totals: seq<DayTotal>,
                                    before: map<string, real>)
    requires comparison.Dict?
  {
    && after.Dict? && after.fields.Keys == comparison.fields.Keys
    && forall k :: k in comparison.fields ==>
         if k == "current" && comparison.fields[k].Dict? then after.fields[k] == WithTotal(comparison.fields[k], total)
         else if k == "previous" then MovedPrevious(rt, comparison.fields[k], totals, before) == Ok(after.fields[k])
         else after.fields[k] == comparison.fields[k]
  }

  predicate ComparisonReadable(rt: Runtime, comparison: Json, totals: seq<DayTotal>, before: map<string, real>)
    requires comparison.Dict?
  {
    "previous" in comparison.fields ==> MovedPrevious(rt, comparison.fields["previous"], totals, before).Ok?
  }

  method MovePrevious(rt: Runtime, previous: Json, totals: seq<DayTotal>, before: map<string, real>)
    returns (r: Result<Json>)
    ensures r == MovedPrevious(rt, previous, totals, before)
    ensures r.Ok? ==> SameExceptTotals(previous, r.value) && PreviousFollows(rt, previous, r.value, totals, before)
  {
    r := MovedPrevious(rt, previous, totals, before);
    if r.Ok? {
      MovedPreviousIsRelated(rt, previous, totals, before);
      MovedFollows(rt, previous, totals, before);
    }
  }

  method PatchComparison(rt: Runtime, comparison: Json, total: real, totals: seq<DayTotal>, before: map<string, real>)
    returns (r: Result<Json>)
    requires comparison.Dict?
    ensures r.Ok? <==> ComparisonReadable(rt, comparison, totals, before)
    ensures r.Ok? ==>
      SameExceptTotals(comparison, r.value) && ComparisonPatched(rt, comparison, r.value, total, totals, before)
    ensures r.Ok? && "previous" in comparison.fields ==>
      PreviousFollows(rt, comparison.fields["previous"], r.value.fields["previous"], totals, before)
  {
    var updated := comparison;
    SameAsItself(comparison);
    if HasDict(comparison, "current") {
      SameAsItself(comparison.fields["current"]);
      TotalsMayBeReplaced(comparison.fields["current"], comparison.fields["current"], total);
      updated := WithField(updated, "current", WithTotal(comparison.fields["current"], total));
    }
    if "previous" in comparison.fields {
      var previous := MovePrevious(rt, comparison.fields["previous"], totals, before);
      if previous.Raised? {
        return Raised;
      }
      FieldsMayBeReplaced(comparison, updated, "previous", previous.value);
      updated := WithField(updated, "previous", previous.value);
    }
    r := Ok(updated);
  }

  datatype Patched = Patched(report: Json, problems: seq<Problem>)

  /** A patched report: nothing but profit totals differ, the total of the days adds up, and a
      comparison shows it as the current one. */
  ghost predicate WellPatched(rt: Runtime, original: Json, report: Json) {
    && SameExceptTotals(original, report)
    && HasDict(report, "daily") && DailyAddsUp(rt, report.fields["daily"])
    && (HasDict(report, "comparison") && HasDict(report.fields["comparison"], "current") ==>
          var current := report.fields["comparison"].fields["current"].fields;
          PROFIT in current && current[PROFIT] == report.fields["daily"].fields[PROFIT])
  }

  /** The days of a report can be patched. */
  predicate DaysPatchable(rt: Runtime, original: Json, totals: seq<DayTotal>) {
    && HasDict(original, "daily") && DailyReadable(rt, original.fields["daily"])
    && HasPeriod(original) && Comparable(totals, StartOf(original), EndOf(original))
  }

  /** A report can be patched: its days and its comparison can. */
  predicate Patchable(rt: Runtime, original: Json, totals: seq<DayTotal>, before: map<string, real>) {
    && DaysPatchable(rt, original, totals)
    && (HasDict(original, "comparison") ==> ComparisonReadable(rt, original.fields["comparison"], totals, before))
  }

  function ProblemsOf(rt: Runtime, original: Json, totals: seq<DayTotal>): seq<Problem>
    requires DaysPatchable(rt, original, totals)
  {
    DailyProblems(rt, original.fields["daily"], totals, StartOf(original), EndOf(original))
  }

  /** What a patch makes of each part of a report. */
  ghost predicate PatchOf(rt: Runtime, original: Json, report: Json, totals: seq<DayTotal>, before: map<string, real>)
    requires DaysPatchable(rt, original, totals)
  {
    && report.Dict? && report.fields.Keys == original.fields.Keys
    && DailyPatched(rt, original.fields["daily"], report.fields["daily"], totals, StartOf(original), EndOf(original))
    && (HasDict(original, "comparison") ==>
          ComparisonPatched(rt, original.fields["comparison"], report.fields["comparison"],
                            report.fields["daily"].fields[PROFIT].value, totals, before))
    && forall k :: k in original.fields && k != "daily" && (k == "comparison" ==> !HasDict(original, "comparison")) ==>
         report.fields[k] == original.fields[k]
  }

  /** A report with its days patched, before its comparison is. */
  method PatchDays(rt: Runtime, original: Json, totals: seq<DayTotal>) returns (r: Result<Patched>)
    ensures r.Ok? <==> DaysPatchable(rt, original, totals)
    ensures r.Ok? ==> SameExceptTotals(original, r.value.report) && r.value.problems == ProblemsOf(rt, original, totals)
    ensures r.Ok? ==>
      && HasDict(r.value.report, "daily")
           && r.value.report == WithField(original, "daily", r.value.report.fields["daily"])
      && DailyPatched(rt, original.fields["daily"], r.value.report.fields["daily"], totals, StartOf(original),
                      EndOf(original))
  {
    if !HasDict(original, "daily") {
      return Raised;
    }
    var daily, problems := PatchDaily(rt, original.fields["daily"], original, totals);
    if daily.Raised? {
      return Raised;
    }
    SameAsItself(original);
    FieldsMayBeReplaced(original, original, "daily", daily.value);
    r := Ok(Patched(WithField(original, "daily", daily.value), problems));
  }

  method PatchPeriodReport(rt: Runtime, original: Json, totals: seq<DayTotal>, before: map<string, real>)
    returns (r: Result<Patched>)
    ensures r.Ok? <==> Patchable(rt, original, totals, before)
    ensures r.Ok? ==> WellPatched(rt, original, r.value.report) && PatchOf(rt, original, r.value.report, totals, before)
    ensures r.Ok? ==> r.value.problems == ProblemsOf(rt, original, totals)
  {
    r := PatchDays(rt, original, totals);
    if r.Raised? {
      return;
    }
    var updated := r.value.report;
    if HasDict(original, "comparison") {
      var comparison := PatchComparison(rt, original.fields["comparison"], updated.fields["daily"].fields[PROFIT].value,
                                        totals, before);
      if comparison.Raised? {
        return Raised;
      }
      ComparisonIsPatched(rt, original, updated, comparison.value);
      r := Ok(Patched(WithField(updated, "comparison", comparison.value), r.value.problems));
    }
  }

  /** A patched comparison put into a report whose days are patched. */
  lemma ComparisonIsPatched(rt: Runtime, original: Json, updated: Json, comparison: Json)
    requires HasDict(original, "comparison") && SameExceptTotals(original, updated) && updated.Dict?
    requires HasDict(updated, "daily") && DailyAddsUp(rt, updated.fields["daily"])
    requires SameExceptTotals(original.fields["comparison"], comparison)
    requires HasDict(comparison, "current") ==>
      var current := comparison.fields["current"].fields;
      PROFIT in current && current[PROFIT] == updated.fields["daily"].fields[PROFIT]
    ensures WellPatched(rt, original, WithField(updated, "comparison", comparison))
  {
    SameShape(original, updated);
    FieldsMayBeReplaced(original, updated, "comparison", comparison);
  }

  // ---------------------------------------------------------------- all reports together

  datatype Schedule = Weekly | Monthly

  datatype Candidate = Candidate(schedule: Schedule, original: Json, report: Json, problems: seq<Problem>)

  datatype PeriodKey = PeriodKey(schedule: Schedule, start: string, end: string)

  /** The key of a period, whose bounds are texts. */
  function KeyOf(schedule: Schedule, j: Json): Result<PeriodKey> {
    if HasPeriod(j) && StartOf(j).Text? && EndOf(j).Text? then Ok(PeriodKey(schedule, StartOf(j).text, EndOf(j).text))
    else Raised
  }

  function DailyTotal(report: Json): real {
    if HasDict(report, "daily") && PROFIT in report.fields["daily"].fields
      && report.fields["daily"].fields[PROFIT].Number?
    then report.fields["daily"].fields[PROFIT].value
    else 0.0
  }

  /** Keys are the same for the same schedule and bounds, which are texts. */
  lemma KeyOfIff(schedule: Schedule, j: Json, key: PeriodKey)
    ensures KeyOf(schedule, j) == Ok(key) <==>
      && key.schedule == schedule && HasDict(j, "period")
      && "start" in j.fields["period"].fields && j.fields["period"].fields["start"] == Text(key.start)
      && "end" in j.fields["period"].fields && j.fields["period"].fields["end"] == Text(key.end)
  {}

  /** The daily total of a patched report is the one it stores. */
  lemma DailyTotalIsStored(rt: Runtime, original: Json, report: Json)
    requires WellPatched(rt, original, report)
    ensures report.fields["daily"].fields["total_profit_loss"] == Money(DailyTotal(report))
  {}

  /** The total of each period, from the last report that covers it. */
  function PeriodTotals(candidates: seq<Candidate>): map<PeriodKey, real> {
    if candidates == [] then map[]
    else
      var last := candidates[|candidates| - 1];
      var key := KeyOf(last.schedule, last.report);
      var rest := PeriodTotals(candidates[..|candidates| - 1]);
      if key.Raised? then rest else rest[key.value := DailyTotal(last.report)]
  }

  /** The comparison with the previous period that a report holds, if it names the period. */
  function PreviousOf(report: Json): Option<Json> {
    if HasDict(report, "comparison") && HasDict(report.fields["comparison"], "previous") &&
       HasDict(report.fields["comparison"].fields["previous"], "period")
    then Some(report.fields["comparison"].fields["previous"])
    else None
  }

  /** A report names the period it compares with exactly when its comparison has a previous part with a period. */
  lemma PreviousOfIff(report: Json, previous: Json)
    ensures PreviousOf(report) == Some(previous) <==>
      && report.Dict? && "comparison" in report.fields && report.fields["comparison"].Dict?
      && "previous" in report.fields["comparison"].fields
      && report.fields["comparison"].fields["previous"] == previous
      && previous.Dict? && "period" in previous.fields && previous.fields["period"].Dict?
  {}

  /** The stored total of the previous period agrees with the report of that period, when there is one. */
  ghost predicate Agrees(rt: Runtime, totals: map<PeriodKey, real>, c: Candidate) {
    PreviousOf(c.report).Some? ==>
      var previous := PreviousOf(c.report).value;
      var key, stored := KeyOf(c.schedule, previous), NumberAt(rt, previous.fields, PROFIT);
      key.Ok? && stored.Ok? && (key.value in totals ==> Abs(stored.value - totals[key.value]) <= TOLERANCE)
  }

  function WithPreviousTotal(report: Json, total: real): Json
    requires PreviousOf(report).Some?
  {
    WithField(report, "comparison",
              WithField(report.fields["comparison"], "previous", WithTotal(PreviousOf(report).value, total)))
  }

  lemma PreviousTotalMayBeReplaced(rt: Runtime, original: Json, report: Json, total: real)
    requires WellPatched(rt, original, report) && PreviousOf(report).Some?
    ensures WellPatched(rt, original, WithPreviousTotal(report, total))
    ensures PreviousOf(WithPreviousTotal(report, total)) == Some(WithTotal(PreviousOf(report).value, total))
  {
    var comparison := original.fields["comparison"];
    SameShape(original, report);
    SameShape(comparison, report.fields["comparison"]);
    TotalsMayBeReplaced(comparison.fields["previous"], PreviousOf(report).value, total);
    FieldsMayBeReplaced(comparison, report.fields["comparison"], "previous",
                        WithTotal(PreviousOf(report).value, total));
    FieldsMayBeReplaced(original, report, "comparison", WithPreviousTotal(report, total).fields["comparison"]);
  }

  /** The comparison of a report can be brought in line: it is an object or empty, and a previous period that it
      names has texts for bounds and a number for total. */
  predicate Alignable(rt: Runtime, schedule: Schedule, report: Json) {
    && report.Dict?
    && ("comparison" in report.fields ==> report.fields["comparison"].Dict? || Falsy(report.fields["comparison"]))
    && (PreviousOf(report).Some? ==>
          KeyOf(schedule, PreviousOf(report).value).Ok? && NumberAt(rt, PreviousOf(report).value.fields, PROFIT).Ok?)
  }

  /** Brings one comparison in line with the report of the period it compares with. */
  method AlignOne(rt: Runtime, totals: map<PeriodKey, real>, c: Candidate) returns (r: Result<Candidate>)
    requires WellPatched(rt, c.original, c.report)
    ensures r.Ok? <==> Alignable(rt, c.schedule, c.report)
    ensures r.Ok? ==> Aligned(rt, totals, c, r.value)
  {
    var comparison := if c.report.Dict? && "comparison" in c.report.fields then c.report.fields["comparison"] else Null;
    if !comparison.Dict? && !Falsy(comparison) {
      return Raised;
    }
    var previous := PreviousOf(c.report);
    if previous.None? {
      return Ok(c);
    }
    var key, stored := KeyOf(c.schedule, previous.value), NumberAt(rt, previous.value.fields, PROFIT);
    if key.Raised? || stored.Raised? {
      return Raised;
    }
    if key.value !in totals || Abs(stored.value - totals[key.value]) <= TOLERANCE {
      return Ok(c);
    }
    var aligned := Round2(totals[key.value]);
    PreviousTotalMayBeReplaced(rt, c.original, c.report, aligned);
    AlignedAgrees(rt, totals, c, aligned);
    r := Ok(c.(report := WithPreviousTotal(c.report, aligned)));
  }

  /** With the rounded total of its period a comparison agrees, and its report keeps its days and its period. */
  lemma AlignedAgrees(rt: Runtime, totals: map<PeriodKey, real>, c: Candidate, total: real)
    requires PreviousOf(c.report).Some? && HasDict(c.report, "daily")
    requires PreviousOf(WithPreviousTotal(c.report, total)) == Some(WithTotal(PreviousOf(c.report).value, total))
    requires KeyOf(c.schedule, PreviousOf(c.report).value).Ok?
    requires
      var key := KeyOf(c.schedule, PreviousOf(c.report).value).value;
      key in totals && total == Round2(totals[key])
    ensures Agrees(rt, totals, c.(report := WithPreviousTotal(c.report, total)))
    ensures DailyTotal(WithPreviousTotal(c.report, total)) == DailyTotal(c.report)
    ensures KeyOf(c.schedule, WithPreviousTotal(c.report, total)) == KeyOf(c.schedule, c.report)
  {
    var previous := PreviousOf(c.report).value;
    RoundingStaysWithinTolerance(totals[KeyOf(c.schedule, previous).value]);
    assert KeyOf(c.schedule, WithTotal(previous, total)) == KeyOf(c.schedule, previous);
    assert NumberAt(rt, WithTotal(previous, total).fields, PROFIT) == Ok(total);
  }

  method CollectTotals(candidates: seq<Candidate>) returns (r: Result<map<PeriodKey, real>>)
    ensures r.Ok? <==> forall i :: 0 <= i < |candidates| ==> KeyOf(candidates[i].schedule, candidates[i].report).Ok?
    ensures r.Ok? ==> r.value == PeriodTotals(candidates)
  {
    var totals: map<PeriodKey, real> := map[];
    for i := 0 to |candidates|
      invariant totals == PeriodTotals(candidates[..i])
      invariant forall k :: 0 <= k < i ==> KeyOf(candidates[k].schedule, candidates[k].report).Ok?
    {
      assert candidates[..i + 1][..i] == candidates[..i];
      var key := KeyOf(candidates[i].schedule, candidates[i].report);
      if key.Raised? {
        return Raised;
      }
      totals := totals[key.value := DailyTotal(candidates[i].report)];
    }
    assert candidates[..|candidates|] == candidates;
    r := Ok(totals);
  }

  /** `after` is the aligned form of `before`: the same when it agrees already, and else with the rounded total of
      the period it compares with. */
  ghost predicate Aligned(rt: Runtime, totals: map<PeriodKey, real>, before: Candidate, after: Candidate) {
    && after.original == before.original && after.problems == before.problems && after.schedule == before.schedule
    && WellPatched(rt, before.original, after.report) && Agrees(rt, totals, after)
    && DailyTotal(after.report) == DailyTotal(before.report)
    && KeyOf(after.schedule, after.report) == KeyOf(before.schedule, before.report)
    && (Agrees(rt, totals, before) ==> after == before)
    && (!Agrees(rt, totals, before) ==>
          && PreviousOf(before.report).Some?
          && var key := KeyOf(before.schedule, PreviousOf(before.report).value);
             key.Ok? && key.value in totals
               && after.report == WithPreviousTotal(before.report, Round2(totals[key.value])))
  }

  ghost predicate AllAligned(rt: Runtime, totals: map<PeriodKey, real>, before: seq<Candidate>, after: seq<Candidate>) {
    && |before| == |after|
    && (before == [] ||
          var n := |before| - 1;
          AllAligned(rt, totals, before[..n], after[..n]) && Aligned(rt, totals, before[n], after[n]))
  }

  lemma {:induction false} EachIsAligned(rt: Runtime, totals: map<PeriodKey, real>, before: seq<Candidate>,
                                         after: seq<Candidate>, i: nat)
    requires AllAligned(rt, totals, before, after) && i < |before|
    ensures Aligned(rt, totals, before[i], after[i])
  {
    if i < |before| - 1 {
      EachIsAligned(rt, totals, before[..|before| - 1], after[..|before| - 1], i);
    }
  }

  lemma AlignTurn(rt: Runtime, totals: map<PeriodKey, real>, candidates: seq<Candidate>, aligned: seq<Candidate>,
                  i: nat, one: Candidate)
    requires i < |candidates| && AllAligned(rt, totals, candidates[..i], aligned)
      && Aligned(rt, totals, candidates[i], one)
    ensures AllAligned(rt, totals, candidates[..i + 1], aligned + [one])
  {
    assert candidates[..i + 1][..i] == candidates[..i] && (aligned + [one])[..i] == aligned;
  }

  predicate AllAlignable(rt: Runtime, candidates: seq<Candidate>) {
    candidates == [] ||
    var n := |candidates| - 1;
    AllAlignable(rt, candidates[..n]) && Alignable(rt, candidates[n].schedule, candidates[n].report)
  }

  lemma {:induction false} EachIsAlignableIff(rt: Runtime, candidates: seq<Candidate>)
    ensures AllAlignable(rt, candidates) <==>
      forall i :: 0 <= i < |candidates| ==> Alignable(rt, candidates[i].schedule, candidates[i].report)
  {
    if candidates != [] {
      EachIsAlignableIff(rt, candidates[..|candidates| - 1]);
    }
  }

  lemma {:induction false} AlignableTurn(rt: Runtime, candidates: seq<Candidate>, i: nat)
    requires i < |candidates|
    ensures AllAlignable(rt, candidates[..i + 1]) <==>
      AllAlignable(rt, candidates[..i]) && Alignable(rt, candidates[i].schedule, candidates[i].report)
    ensures AllAlignable(rt, candidates) ==> AllAlignable(rt, candidates[..i + 1])
  {
    assert candidates[..i + 1][..i] == candidates[..i];
    if i + 1 < |candidates| {
      var n := |candidates| - 1;
      AlignableTurn(rt, candidates[..n], i);
      assert candidates[..n][..i + 1] == candidates[..i + 1];
    } else {
      assert candidates[..i + 1] == candidates;
    }
  }

  method AlignEach(rt: Runtime, totals: map<PeriodKey, real>, candidates: seq<Candidate>)
    returns (r: Result<seq<Candidate>>)
    requires forall i :: 0 <= i < |candidates| ==> WellPatched(rt, candidates[i].original, candidates[i].report)
    ensures r.Ok? <==> AllAlignable(rt, candidates)
    ensures r.Ok? ==> AllAligned(rt, totals, candidates, r.value)
  {
    var aligned: seq<Candidate> := [];
    for i := 0 to |candidates|
      invariant AllAligned(rt, totals, candidates[..i], aligned)
      invariant AllAlignable(rt, candidates[..i])
    {
      AlignableTurn(rt, candidates, i);
      var one := AlignOne(rt, totals, candidates[i]);
      if one.Raised? {
        return Raised;
      }
      AlignTurn(rt, totals, candidates, aligned, i, one.value);
      aligned := aligned + [one.value];
    }
    assert candidates[..|candidates|] == candidates;
    r := Ok(aligned);
  }

  /** Brings all comparisons in line, with the totals as patched before. */
  method AlignPrevious(rt: Runtime, candidates: seq<Candidate>) returns (r: Result<seq<Candidate>>)
    requires forall i :: 0 <= i < |candidates| ==> WellPatched(rt, candidates[i].original, candidates[i].report)
    ensures r.Ok? <==>
      && (forall i :: 0 <= i < |candidates| ==> KeyOf(candidates[i].schedule, candidates[i].report).Ok?)
      && AllAlignable(rt, candidates)
    ensures r.Ok? ==> AllAligned(rt, PeriodTotals(candidates), candidates, r.value)
  {
    var totals := CollectTotals(candidates);
    if totals.Raised? {
      return Raised;
    }
    r := AlignEach(rt, totals.value, candidates);
  }

  /** No later candidate covers the period of candidate `j`. */
  ghost predicate CoversLast(candidates: seq<Candidate>, j: nat)
    requires j < |candidates|
  {
    && KeyOf(candidates[j].schedule, candidates[j].report).Ok?
    && forall l :: j < l < |candidates| ==>
         KeyOf(candidates[l].schedule, candidates[l].report) != KeyOf(candidates[j].schedule, candidates[j].report)
  }

  lemma {:induction false} LastCoverCounts(candidates: seq<Candidate>, j: nat)
    requires j < |candidates| && CoversLast(candidates, j)
    ensures
      var key := KeyOf(candidates[j].schedule, candidates[j].report).value;
      key in PeriodTotals(candidates) && PeriodTotals(candidates)[key] == DailyTotal(candidates[j].report)
  {
    var n := |candidates| - 1;
    if j < n {
      LastCoverCounts(candidates[..n], j);
      assert KeyOf(candidates[n].schedule, candidates[n].report) != KeyOf(candidates[j].schedule, candidates[j].report);
    }
  }

  /** Where a report compares with a period that reports cover, its stored total is that of the last of them. */
  ghost predicate ComparisonsAgree(rt: Runtime, candidates: seq<Candidate>) {
    forall i, j :: 0 <= i < |candidates| && 0 <= j < |candidates| && CoversLast(candidates, j) ==>
      ComparesWith(rt, candidates[i], candidates[j])
  }

  ghost predicate ComparesWith(rt: Runtime, c: Candidate, d: Candidate) {
    PreviousOf(c.report).Some? && KeyOf(c.schedule, PreviousOf(c.report).value) == KeyOf(d.schedule, d.report) ==>
      var stored := NumberAt(rt, PreviousOf(c.report).value.fields, PROFIT);
      stored.Ok? && Abs(stored.value - DailyTotal(d.report)) <= TOLERANCE
  }

  lemma AlignedComparisonsAgree(rt: Runtime, before: seq<Candidate>, after: seq<Candidate>)
    requires AllAligned(rt, PeriodTotals(before), before, after) && |before| == |after|
    ensures ComparisonsAgree(rt, after)
  {
    var totals := PeriodTotals(before);
    forall i, j | 0 <= i < |after| && 0 <= j < |after| && CoversLast(after, j)
      ensures ComparesWith(rt, after[i], after[j]) {
      SameCover(rt, before, after, j);
      LastCoverCounts(before, j);
      EachIsAligned(rt, totals, before, after, i);
      EachIsAligned(rt, totals, before, after, j);
      AlignedCompares(rt, totals, before[i], after[i], before[j], after[j]);
    }
  }

  lemma AlignedCompares(rt: Runtime, totals: map<PeriodKey, real>, before: Candidate, after: Candidate,
                        other: Candidate, last: Candidate)
    requires Aligned(rt, totals, before, after) && Aligned(rt, totals, other, last)
    requires
      var key := KeyOf(other.schedule, other.report);
      key.Ok? && key.value in totals && totals[key.value] == DailyTotal(other.report)
    ensures ComparesWith(rt, after, last)
  {
  }

  lemma SameCover(rt: Runtime, before: seq<Candidate>, after: seq<Candidate>, j: nat)
    requires AllAligned(rt, PeriodTotals(before), before, after) && |before| == |after| && j < |after|
      && CoversLast(after, j)
    ensures CoversLast(before, j)
  {
    forall l | j <= l < |after|
      ensures KeyOf(before[l].schedule, before[l].report) == KeyOf(after[l].schedule, after[l].report)
    {
      EachIsAligned(rt, PeriodTotals(before), before, after, l);
    }
  }

  /** What is decided about one report file. */
  datatype FilePlan = FilePlan(changed: set<string>, unexpected: set<string>, willWrite: bool)

  function Plan(c: Candidate, inScope: bool): FilePlan {
    var changed := Differences(c.original, c.report, "");
    var unexpected := set p | p in changed && !IsProfitPath(p);
    FilePlan(changed, unexpected, changed != {} && inScope && c.problems == [] && unexpected == {})
  }

  /** No patched and aligned report has an unexpected difference, so a file in scope and without
      problems is written exactly when it has changed. */
  lemma NothingUnexpectedChanges(rt: Runtime, c: Candidate, inScope: bool)
    requires WellPatched(rt, c.original, c.report)
    ensures Plan(c, inScope).unexpected == {}
    ensures Plan(c, inScope).willWrite <==> inScope && c.problems == [] && !PyEqual(c.original, c.report)
  {
    OnlyProfitPathsDiffer(c.original, c.report, "");
    NoDifferenceIffEqual(c.original, c.report, "");
  }

  predicate Covers(j: Json, dates: set<string>) {
    && HasPeriod(j) && StartOf(j).Text? && EndOf(j).Text?
    && exists d :: d in dates && AtMost(StartOf(j).text, d) && AtMost(d, EndOf(j).text)
  }

  /** The report or the period it compares with covers one of the dates. */
  predicate InScope(report: Json, dates: set<string>) {
    Covers(report, dates) || (PreviousOf(report).Some? && Covers(PreviousOf(report).value, dates))
  }

  /** A date in the period of the report or in the one it compares with. */
  ghost predicate Touches(report: Json, date: string) {
    || (HasPeriod(report) && StartOf(report).Text? && EndOf(report).Text?
        && Within(StartOf(report), date, EndOf(report)) == Ok(true))
    || (PreviousOf(report).Some?
        && var previous := PreviousOf(report).value;
           HasPeriod(previous) && StartOf(previous).Text? && EndOf(previous).Text?
           && Within(StartOf(previous), date, EndOf(previous)) == Ok(true))
  }

  lemma InScopeIff(report: Json, dates: set<string>)
    ensures InScope(report, dates) <==> exists date :: date in dates && Touches(report, date)
  {}

  /** The previous period of an original report can be looked at: a comparison's previous is an object or empty. */
  predicate PreviousReadable(original: Json) {
    HasDict(original, "comparison") && "previous" in original.fields["comparison"].fields ==>
      original.fields["comparison"].fields["previous"].Dict? || Falsy(original.fields["comparison"].fields["previous"])
  }

  /** A report file that does not make the plan raise. */
  predicate Plannable(rt: Runtime, file: (Schedule, Json), totals: seq<DayTotal>, before: map<string, real>) {
    && Patchable(rt, file.1, totals, before) && KeyOf(file.0, file.1).Ok?
    && Alignable(rt, file.0, file.1) && PreviousReadable(file.1)
  }

  /** A total that `float` takes: absent or false, a number, or a text of one. */
  ghost predicate Readable(rt: Runtime, fields: map<string, Json>) {
    "total_profit_loss" in fields ==>
      var total := fields["total_profit_loss"];
      Falsy(total) || total.Number? || (total.Text? && rt.parse(total.text).Some?)
  }

  /** A period with texts for both bounds. */
  ghost predicate HasTextPeriod(j: Json) {
    && j.Dict? && "period" in j.fields && j.fields["period"].Dict?
    && var period := j.fields["period"].fields;
       "start" in period && period["start"].Text? && "end" in period && period["end"].Text?
  }

  /** The rows of the days are absent, false or objects with totals that can be read, and so is the stored total. */
  ghost predicate DaysCanBeRead(rt: Runtime, report: Json) {
    && report.Dict? && "daily" in report.fields && report.fields["daily"].Dict?
    && var daily := report.fields["daily"].fields;
       && Readable(rt, daily)
       && ("reports" in daily ==>
             || Falsy(daily["reports"])
             || (&& daily["reports"].List?
                 && forall i :: 0 <= i < |daily["reports"].items| ==>
                      daily["reports"].items[i].Dict? && Readable(rt, daily["reports"].items[i].fields)))
  }

  /** A previous part is an object or false; if it names a period, that has texts for bounds and a total that can be
      read. */
  ghost predicate PreviousCanBeRead(rt: Runtime, comparison: Json)
    requires comparison.Dict?
  {
    "previous" in comparison.fields ==>
      var previous := comparison.fields["previous"];
      && (previous.Dict? || Falsy(previous))
      && (previous.Dict? && "period" in previous.fields && previous.fields["period"].Dict? ==>
            HasTextPeriod(previous) && Readable(rt, previous.fields))
  }

  lemma TextsAreComparable(totals: seq<DayTotal>, start: Json, end: Json)
    requires start.Text? && end.Text?
    ensures Comparable(totals, start, end)
  {}

  lemma ReadableIff(rt: Runtime, fields: map<string, Json>)
    ensures Readable(rt, fields) <==> NumberAt(rt, fields, PROFIT).Ok?
  {}

  lemma DaysCanBeReadIff(rt: Runtime, report: Json)
    ensures DaysCanBeRead(rt, report) <==> HasDict(report, "daily") && DailyReadable(rt, report.fields["daily"])
  {
    if HasDict(report, "daily") {
      var daily := report.fields["daily"].fields;
      ReadableIff(rt, daily);
      if RowsOf(daily).Ok? {
        var rows := RowsOf(daily).value;
        SumIsReadableIff(rt, rows);
        forall i | 0 <= i < |rows| && rows[i].Dict?
          ensures Readable(rt, rows[i].fields) <==> Summable(rt, rows[i])
        {
          ReadableIff(rt, rows[i].fields);
        }
      }
    }
  }

  lemma PreviousCanBeReadIff(rt: Runtime, schedule: Schedule, report: Json, totals: seq<DayTotal>,
                             before: map<string, real>)
    requires HasDict(report, "comparison")
    ensures PreviousCanBeRead(rt, report.fields["comparison"]) <==>
      && ComparisonReadable(rt, report.fields["comparison"], totals, before) && PreviousReadable(report)
      && Alignable(rt, schedule, report)
  {
    var comparison := report.fields["comparison"].fields;
    if "previous" in comparison && comparison["previous"].Dict? {
      var previous := comparison["previous"];
      ReadableIff(rt, previous.fields);
      MovedPreviousRaisesIff(rt, previous, totals, before);
      if HasTextPeriod(previous) {
        TextsAreComparable(totals, StartOf(previous), EndOf(previous));
      }
    }
  }

  /** Which files do not make the plan raise, in terms of their fields: whatever the totals are, the days can be read, the
      period has texts for bounds, and a comparison is an object whose previous part can be read, or false. */
  lemma PlannableIff(rt: Runtime, file: (Schedule, Json), totals: seq<DayTotal>, before: map<string, real>)
    ensures Plannable(rt, file, totals, before) <==>
      && DaysCanBeRead(rt, file.1) && HasTextPeriod(file.1)
      && ("comparison" in file.1.fields ==>
            var comparison := file.1.fields["comparison"];
            Falsy(comparison) || (comparison.Dict? && PreviousCanBeRead(rt, comparison)))
  {
    DaysCanBeReadIff(rt, file.1);
    if HasTextPeriod(file.1) {
      TextsAreComparable(totals, StartOf(file.1), EndOf(file.1));
    }
    if HasDict(file.1, "comparison") {
      PreviousCanBeReadIff(rt, file.0, file.1, totals, before);
    }
  }

  /** The patched form of a file, with its problems. */
  ghost predicate CandidateOf(rt: Runtime, file: (Schedule, Json), totals: seq<DayTotal>, before: map<string, real>,
                              c: Candidate) {
    && c.schedule == file.0 && c.original == file.1 && Patchable(rt, file.1, totals, before)
    && WellPatched(rt, file.1, c.report) && PatchOf(rt, file.1, c.report, totals, before)
    && c.problems == ProblemsOf(rt, file.1, totals)
  }

  ghost predicate CandidatesOf(rt: Runtime, files: seq<(Schedule, Json)>, totals: seq<DayTotal>,
                               before: map<string, real>, candidates: seq<Candidate>)
  {
    |candidates| == |files| && forall i :: 0 <= i < |files| ==> CandidateOf(rt, files[i], totals, before, candidates[i])
  }

  /** A patch keeps which previous period a report names, and whether its total is a number. */
  lemma PatchKeepsPrevious(rt: Runtime, file: (Schedule, Json), totals: seq<DayTotal>, before: map<string, real>,
                           c: Candidate)
    requires CandidateOf(rt, file, totals, before, c)
    ensures PreviousOf(c.report).Some? <==> PreviousOf(file.1).Some?
    ensures PreviousOf(file.1).Some? ==>
      && KeyOf(file.0, PreviousOf(c.report).value) == KeyOf(file.0, PreviousOf(file.1).value)
      && (NumberAt(rt, PreviousOf(c.report).value.fields, PROFIT).Ok? <==>
          NumberAt(rt, PreviousOf(file.1).value.fields, PROFIT).Ok?)
  {
    if HasDict(file.1, "comparison") {
      var comparison, patched := file.1.fields["comparison"], c.report.fields["comparison"];
      assert ComparisonPatched(rt, comparison, patched, c.report.fields["daily"].fields[PROFIT].value, totals, before);
      if "previous" in comparison.fields {
        MovedKeepsReadable(rt, file.0, comparison.fields["previous"], totals, before);
        assert MovedPrevious(rt, comparison.fields["previous"], totals, before) == Ok(patched.fields["previous"]);
      }
    } else {
      assert "comparison" in file.1.fields ==> c.report.fields["comparison"] == file.1.fields["comparison"];
    }
  }

  /** A patch does not change whether a report can be brought in line. */
  lemma PatchKeepsAlignable(rt: Runtime, file: (Schedule, Json), totals: seq<DayTotal>, before: map<string, real>,
                            c: Candidate)
    requires CandidateOf(rt, file, totals, before, c)
    ensures KeyOf(c.schedule, c.report) == KeyOf(file.0, file.1)
    ensures Alignable(rt, c.schedule, c.report) <==> Alignable(rt, file.0, file.1)
  {
    PatchKeepsPrevious(rt, file, totals, before, c);
    assert "period" in file.1.fields && c.report.fields["period"] == file.1.fields["period"];
  }

  lemma PatchesKeepAlignable(rt: Runtime, files: seq<(Schedule, Json)>, totals: seq<DayTotal>,
                             before: map<string, real>, patched: seq<Candidate>)
    requires CandidatesOf(rt, files, totals, before, patched)
    ensures
      ((forall i :: 0 <= i < |patched| ==> KeyOf(patched[i].schedule, patched[i].report).Ok?)
       && AllAlignable(rt, patched)) <==>
      (forall i :: 0 <= i < |files| ==> KeyOf(files[i].0, files[i].1).Ok? && Alignable(rt, files[i].0, files[i].1))
  {
    EachIsAlignableIff(rt, patched);
    forall i | 0 <= i < |files|
      ensures KeyOf(patched[i].schedule, patched[i].report) == KeyOf(files[i].0, files[i].1)
      ensures Alignable(rt, patched[i].schedule, patched[i].report) <==> Alignable(rt, files[i].0, files[i].1)
    {
      PatchKeepsAlignable(rt, files[i], totals, before, patched[i]);
    }
  }

  lemma MovedKeepsReadable(rt: Runtime, schedule: Schedule, previous: Json, totals: seq<DayTotal>,
                           before: map<string, real>)
    requires MovedPrevious(rt, previous, totals, before).Ok?
    ensures
      var moved := MovedPrevious(rt, previous, totals, before).value;
      && (HasDict(moved, "period") <==> HasDict(previous, "period"))
      && (HasDict(previous, "period") ==>
            && KeyOf(schedule, moved) == KeyOf(schedule, previous)
            && (NumberAt(rt, moved.fields, PROFIT).Ok? <==> NumberAt(rt, previous.fields, PROFIT).Ok?))
  {
    var moved := MovedPrevious(rt, previous, totals, before).value;
    if moved != previous {
      TotalIsReadable(rt, previous, moved.fields[PROFIT].value);
    }
  }

  method PatchAll(rt: Runtime, files: seq<(Schedule, Json)>, totals: seq<DayTotal>, before: map<string, real>)
    returns (r: Result<seq<Candidate>>)
    ensures r.Ok? <==> forall i :: 0 <= i < |files| ==> Patchable(rt, files[i].1, totals, before)
    ensures r.Ok? ==> CandidatesOf(rt, files, totals, before, r.value)
  {
    var candidates: seq<Candidate> := [];
    for i := 0 to |files|
      invariant |candidates| == i && forall k :: 0 <= k < i ==> CandidateOf(rt, files[k], totals, before, candidates[k])
    {
      var patched := PatchPeriodReport(rt, files[i].1, totals, before);
      if patched.Raised? {
        return Raised;
      }
      candidates := candidates + [Candidate(files[i].0, files[i].1, patched.value.report, patched.value.problems)];
    }
    r := Ok(candidates);
  }

  method PlanAll(candidates: seq<Candidate>, dates: set<string>) returns (r: Result<seq<FilePlan>>)
    ensures r.Ok? <==> forall i :: 0 <= i < |candidates| ==> PreviousReadable(candidates[i].original)
    ensures r.Ok? ==> |r.value| == |candidates|
    ensures r.Ok? ==> forall i :: 0 <= i < |candidates| ==>
      r.value[i] == Plan(candidates[i], InScope(candidates[i].original, dates))
  {
    var plans: seq<FilePlan> := [];
    for i := 0 to |candidates|
      invariant |plans| == i && forall k :: 0 <= k < i ==> PreviousReadable(candidates[k].original)
      invariant forall k :: 0 <= k < i ==> plans[k] == Plan(candidates[k], InScope(candidates[k].original, dates))
    {
      if !PreviousReadable(candidates[i].original) {
        return Raised;
      }
      plans := plans + [Plan(candidates[i], InScope(candidates[i].original, dates))];
    }
    r := Ok(plans);
  }

  /** A planned file: nothing unexpected differs, and it is written exactly when it is in scope, had no problem
      and differs. */
  ghost predicate Planned(rt: Runtime, file: (Schedule, Json), totals: seq<DayTotal>, dates: set<string>, c: Candidate,
                          plan: FilePlan) {
    && c.schedule == file.0 && c.original == file.1
    && DaysPatchable(rt, file.1, totals) && c.problems == ProblemsOf(rt, file.1, totals)
    && plan.unexpected == {}
    && (plan.willWrite <==> InScope(file.1, dates) && c.problems == [] && !PyEqual(file.1, c.report))
  }

  /** Patches all reports and brings their comparisons in line. */
  method PatchAndAlign(rt: Runtime, files: seq<(Schedule, Json)>, totals: seq<DayTotal>, before: map<string, real>)
    returns (r: Result<seq<Candidate>>, ghost patched: seq<Candidate>)
    ensures r.Ok? <==> forall i :: 0 <= i < |files| ==>
      Patchable(rt, files[i].1, totals, before) && KeyOf(files[i].0, files[i].1).Ok?
        && Alignable(rt, files[i].0, files[i].1)
    ensures r.Ok? ==>
      CandidatesOf(rt, files, totals, before, patched) && AllAligned(rt, PeriodTotals(patched), patched, r.value)
  {
    var all := PatchAll(rt, files, totals, before);
    if all.Raised? {
      return Raised, [];
    }
    patched := all.value;
    PatchesKeepAlignable(rt, files, totals, before, patched);
    r := AlignPrevious(rt, all.value);
  }

  /** Patches and aligns all reports and decides which files to write. It raises exactly when some file cannot be
      read as it needs. Afterwards all comparisons agree, nothing unexpected differs, and a file is written
      exactly when it is in scope, had no problem and differs. */
  method PlanPeriodFiles(rt: Runtime, files: seq<(Schedule, Json)>, totals: seq<DayTotal>, before: map<string, real>,
                         dates: set<string>)
    returns (r: Result<seq<FilePlan>>, candidates: seq<Candidate>)
    ensures r.Ok? <==> forall i :: 0 <= i < |files| ==> Plannable(rt, files[i], totals, before)
    ensures r.Ok? ==> |r.value| == |candidates| == |files|
    ensures r.Ok? ==> exists patched ::
      CandidatesOf(rt, files, totals, before, patched) && AllAligned(rt, PeriodTotals(patched), patched, candidates)
    ensures r.Ok? ==> ComparisonsAgree(rt, candidates)
    ensures r.Ok? ==> forall i :: 0 <= i < |files| ==> Planned(rt, files[i], totals, dates, candidates[i], r.value[i])
  {
    candidates := [];
    var aligned: Result<seq<Candidate>>;
    ghost var patched;
    aligned, patched := PatchAndAlign(rt, files, totals, before);
    if aligned.Raised? {
      return Raised, candidates;
    }
    candidates := aligned.value;
    AlignedComparisonsAgree(rt, patched, candidates);
    EachFileIsPlanned(rt, files, totals, before, patched, candidates, dates);
    r := PlanAll(candidates, dates);
  }

  lemma EachFileIsPlanned(rt: Runtime, files: seq<(Schedule, Json)>, totals: seq<DayTotal>, before: map<string, real>,
                          patched: seq<Candidate>, candidates: seq<Candidate>, dates: set<string>)
    requires CandidatesOf(rt, files, totals, before, patched)
      && AllAligned(rt, PeriodTotals(patched), patched, candidates)
    ensures |candidates| == |files|
    ensures forall i :: 0 <= i < |files| ==>
      Planned(rt, files[i], totals, dates, candidates[i], Plan(candidates[i], InScope(candidates[i].original, dates)))
  {
    forall i | 0 <= i < |files|
      ensures Planned(rt, files[i], totals, dates, candidates[i],
                      Plan(candidates[i], InScope(candidates[i].original, dates)))
    {
      EachIsAligned(rt, PeriodTotals(patched), patched, candidates, i);
      NothingUnexpectedChanges(rt, candidates[i], InScope(candidates[i].original, dates));
    }
  }
}
