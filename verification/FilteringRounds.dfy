/** The rounds in which the morning filter fetches missing boards again, and what they come to. */
module FilteringRounds {
  import opened Common

  /** A value as a client returns it; `float` raises on an unreadable one. */
  datatype Reading = Number(value: real) | Unreadable

  datatype Board = Board(turnover: Option<Reading>, volume: Option<Reading>, price: Option<Reading>)

  datatype BoardFetch = BoardRaises | NoBoard | Fetched(board: Board)

  datatype AverageFetch = AverageRaises | AverageIs(average: Option<Reading>)

  /** The turnover of a board, given or as price times volume; raises when a factor is unreadable. */
  function TurnoverOf(b: Board): Result<Option<Reading>> {
    if b.turnover.Some? then Ok(b.turnover)
    else if b.volume.Some? && b.price.Some? then
      if b.volume.value.Number? && b.price.value.Number?
      then Ok(Some(Number(b.price.value.value * b.volume.value.value)))
      else Raised
    else Ok(None)
  }

  /** What a turnover and an average come to. */
  datatype Verdict = Breaks | NoAverage | NonPositive | Ratio(ratio: real, noTrades: bool)

  predicate IsZero(r: Option<Reading>) {
    r == Some(Number(0.0))
  }

  function Assess(turnover: Reading, volume: Option<Reading>, average: AverageFetch): Verdict {
    if turnover.Unreadable? then Breaks
    else if average.AverageRaises? || average.average.None? then NoAverage
    else if average.average.value.Unreadable? then Breaks
    else if average.average.value.value <= 0.0 then NonPositive
    else Ratio(turnover.value / average.average.value.value, IsZero(Some(turnover)) && IsZero(volume))
  }

  // ---------------------------------------------------------------- boards fetched again

  /** One round of fetching again: whether the cutoff comes first, whether the fetch as a whole raises, the boards
      it brings, and what loading an average answers then, which may depend on the board. */
  datatype Round = Round(cutoff: bool, raises: bool, results: map<Symbol, BoardFetch>, averages: Symbol -> AverageFetch)

  /** What an attempt comes to: nothing new, an exception before the record is touched, or a verdict. */
  datatype Attempted = Missing | Interrupted | Applied(verdict: Verdict)

  function AttemptOf(fetch: BoardFetch, average: AverageFetch): Attempted {
    if !fetch.Fetched? then Missing
    else
      var turnover := TurnoverOf(fetch.board);
      if turnover.Raised? then Interrupted
      else if turnover.value.None? then Missing
      else Applied(Assess(turnover.value.value, fetch.board.volume, average))
  }

  // ---------------------------------------------------------------- what the fields of a board say

  /** A board shows a turnover: its own, or its price times its volume. */
  ghost predicate ShowsTurnover(b: Board, turnover: Reading) {
    || b.turnover == Some(turnover)
    || (b.turnover.None? && b.price.Some? && b.volume.Some? && b.price.value.Number? && b.volume.value.Number?
        && turnover == Number(b.price.value.value * b.volume.value.value))
  }

  ghost predicate ShowsNone(b: Board) {
    b.turnover.None? && (b.price.None? || b.volume.None?)
  }

  ghost predicate CannotBeMultiplied(b: Board) {
    && b.turnover.None? && b.price.Some? && b.volume.Some?
    && (b.price.value.Unreadable? || b.volume.value.Unreadable?)
  }

  ghost predicate ShowsNumber(b: Board) {
    exists turnover: real :: ShowsTurnover(b, Number(turnover))
  }

  /** The ratio of a turnover to a positive average. */
  ghost predicate IsRatio(turnover: Reading, average: AverageFetch, ratio: real) {
    && turnover.Number? && average.AverageIs? && average.average.Some? && average.average.value.Number?
    && average.average.value.value > 0.0 && ratio * average.average.value.value == turnover.value
  }

  ghost predicate AverageLacks(average: AverageFetch) {
    average == AverageRaises || average == AverageIs(None)
  }

  ghost predicate AverageNotPositive(average: AverageFetch) {
    && average.AverageIs? && average.average.Some? && average.average.value.Number?
    && average.average.value.value <= 0.0
  }

  /** What a verdict says of the board and the average that it was given on. */
  ghost predicate VerdictSays(b: Board, average: AverageFetch, verdict: Verdict) {
    match verdict
    case Breaks => ShowsTurnover(b, Unreadable) || (ShowsNumber(b) && average == AverageIs(Some(Unreadable)))
    case NoAverage => ShowsNumber(b) && AverageLacks(average)
    case NonPositive => ShowsNumber(b) && AverageNotPositive(average)
    case Ratio(ratio, noTrades) =>
      && (exists turnover: real :: ShowsTurnover(b, Number(turnover)) && IsRatio(Number(turnover), average, ratio))
      && (noTrades <==> ShowsTurnover(b, Number(0.0)) && b.volume == Some(Number(0.0)))
  }

  lemma RatioIsUnique(turnover: Reading, average: AverageFetch, ratio: real, other: real)
    requires IsRatio(turnover, average, ratio) && IsRatio(turnover, average, other)
    ensures ratio == other
  {
    var mean := average.average.value.value;
    if ratio < other {
      ScaleIsStrict(ratio, other, mean);
    } else if other < ratio {
      ScaleIsStrict(other, ratio, mean);
    }
  }

  lemma AssessSays(b: Board, average: AverageFetch, turnover: Reading)
    requires TurnoverOf(b) == Ok(Some(turnover))
    ensures ShowsTurnover(b, turnover) && forall other :: ShowsTurnover(b, other) ==> other == turnover
    ensures VerdictSays(b, average, Assess(turnover, b.volume, average))
  {
    if turnover.Number? {
      assert ShowsTurnover(b, Number(turnover.value));
      var verdict := Assess(turnover, b.volume, average);
      if verdict.Ratio? {
        var mean := average.average.value.value;
        assert turnover.value / mean * mean == turnover.value;
      }
    }
  }

  /** An attempt gives the one verdict that the fields of its board allow, breaks off exactly when price and volume are
      there but cannot be multiplied, and comes to nothing exactly without a board or a turnover. */
  lemma AttemptIff(fetch: BoardFetch, average: AverageFetch, verdict: Verdict)
    ensures
      var r := AttemptOf(fetch, average);
      && (r == Applied(verdict) <==> fetch.Fetched? && VerdictSays(fetch.board, average, verdict))
      && (r == Interrupted <==> fetch.Fetched? && CannotBeMultiplied(fetch.board))
      && (r == Missing <==> (fetch.Fetched? ==> ShowsNone(fetch.board)))
  {
    if fetch.Fetched? && TurnoverOf(fetch.board).Ok? && TurnoverOf(fetch.board).value.Some? {
      var turnover := TurnoverOf(fetch.board).value.value;
      AssessSays(fetch.board, average, turnover);
      var given := Assess(turnover, fetch.board.volume, average);
      if VerdictSays(fetch.board, average, verdict) {
        OneVerdict(fetch.board, average, turnover, given, verdict);
      }
    }
  }

  lemma OneVerdict(b: Board, average: AverageFetch, turnover: Reading, given: Verdict, verdict: Verdict)
    requires forall other :: ShowsTurnover(b, other) ==> other == turnover
    requires VerdictSays(b, average, given) && VerdictSays(b, average, verdict)
    ensures given == verdict
  {
    if given.Ratio? && verdict.Ratio? {
      RatioIsUnique(turnover, average, given.ratio, verdict.ratio);
    }
  }

  // ---------------------------------------------------------------- a round

  /** A round gets through, misses a result, or is broken off by an exception. */
  datatype RoundEnd = Through | RoundStopped | RoundRaised

  /** The verdicts so far, the records still without one, and how the round ends. */
  datatype RoundOutcome = RoundOutcome(verdicts: map<nat, Verdict>, still: seq<nat>, end: RoundEnd)

  /** An attempt's verdict, if any, among the others. */
  function WithVerdict(verdicts: map<nat, Verdict>, i: nat, r: Attempted): map<nat, Verdict> {
    if r.Applied? then verdicts[i := r.verdict] else verdicts
  }

  /** One more record of a round that has got through so far; `rest` are the records after it. */
  function Tried(so: RoundOutcome, i: nat, s: Symbol, rest: seq<nat>, round: Round): RoundOutcome {
    if s !in round.results then RoundOutcome(so.verdicts, so.still + [i] + rest, RoundStopped)
    else
      var r := AttemptOf(round.results[s], round.averages(s));
      var verdicts := WithVerdict(so.verdicts, i, r);
      var still := if r.Applied? then so.still else so.still + [i];
      if r.Interrupted? || r == Applied(Breaks) then RoundOutcome(verdicts, still + rest, RoundRaised)
      else RoundOutcome(verdicts, still, Through)
  }

  /** The first `n` records of a round, in order, until one ends it. */
  function RoundOf(symbols: seq<Symbol>, unresolved: seq<nat>, n: nat, round: Round,
                   verdicts: map<nat, Verdict>): RoundOutcome
    requires n <= |unresolved| && forall k :: 0 <= k < |unresolved| ==> unresolved[k] < |symbols|
  {
    if n == 0 then RoundOutcome(verdicts, [], Through)
    else
      var so := RoundOf(symbols, unresolved, n - 1, round, verdicts);
      if !so.end.Through? then so
      else Tried(so, unresolved[n - 1], symbols[unresolved[n - 1]], unresolved[n..], round)
  }

  lemma {:induction false} RoundStaysOver(symbols: seq<Symbol>, unresolved: seq<nat>, k: nat, n: nat, round: Round,
                                          verdicts: map<nat, Verdict>)
    requires k <= n <= |unresolved| && forall k :: 0 <= k < |unresolved| ==> unresolved[k] < |symbols|
    requires !RoundOf(symbols, unresolved, k, round, verdicts).end.Through?
    ensures RoundOf(symbols, unresolved, n, round, verdicts) ==
      RoundOf(symbols, unresolved, k, round, verdicts)
  {
    if k < n {
      RoundStaysOver(symbols, unresolved, k, n - 1, round, verdicts);
    }
  }

  predicate Starts(round: Round) {
    !round.cutoff && !round.raises && round.results != map[]
  }

  lemma {:induction false} StillAreUnresolved(symbols: seq<Symbol>, unresolved: seq<nat>, n: nat, round: Round,
                                              verdicts: map<nat, Verdict>)
    requires n <= |unresolved| && forall k :: 0 <= k < |unresolved| ==> unresolved[k] < |symbols|
    ensures forall k :: 0 <= k < |RoundOf(symbols, unresolved, n, round, verdicts).still| ==>
      RoundOf(symbols, unresolved, n, round, verdicts).still[k] in unresolved
  {
    if n > 0 {
      StillAreUnresolved(symbols, unresolved, n - 1, round, verdicts);
      assert unresolved[n - 1] in unresolved && forall x :: x in unresolved[n..] ==> x in unresolved;
    }
  }

  /** The verdicts after all rounds from round `n` on. */
  function VerdictsFrom(symbols: seq<Symbol>, unresolved: seq<nat>, rounds: seq<Round>, n: nat,
                        verdicts: map<nat, Verdict>): map<nat, Verdict>
    requires n <= |rounds| && forall k :: 0 <= k < |unresolved| ==> unresolved[k] < |symbols|
    decreases |rounds| - n
  {
    if n == |rounds| || unresolved == [] || !Starts(rounds[n]) then verdicts
    else
      StillAreUnresolved(symbols, unresolved, |unresolved|, rounds[n], verdicts);
      var outcome := RoundOf(symbols, unresolved, |unresolved|, rounds[n], verdicts);
      if outcome.end.Through? then VerdictsFrom(symbols, outcome.still, rounds, n + 1, outcome.verdicts)
      else outcome.verdicts
  }

  /** The verdicts of the records set aside. */
  function VerdictsOf(symbols: seq<Symbol>, pending: seq<nat>, rounds: seq<Round>): map<nat, Verdict>
    requires forall k :: 0 <= k < |pending| ==> pending[k] < |symbols|
  {
    VerdictsFrom(symbols, pending, rounds, 0, map[])
  }

  /** The rounds from `n` on, if any go on, lead from the present verdicts to all of them. */
  ghost predicate LeadsTo(all: map<nat, Verdict>, symbols: seq<Symbol>, unresolved: seq<nat>, rounds: seq<Round>,
                          n: nat, verdicts: map<nat, Verdict>, goOn: bool)
  {
    && n <= |rounds| && (forall k :: 0 <= k < |unresolved| ==> unresolved[k] < |symbols|)
    && Same(all, if goOn then VerdictsFrom(symbols, unresolved, rounds, n, verdicts) else verdicts)
  }

  ghost predicate Same(a: map<nat, Verdict>, b: map<nat, Verdict>) {
    a == b
  }

  lemma RoundLeadsOn(all: map<nat, Verdict>, symbols: seq<Symbol>, unresolved: seq<nat>, rounds: seq<Round>, n: nat,
                     verdicts: map<nat, Verdict>)
    requires LeadsTo(all, symbols, unresolved, rounds, n, verdicts, true)
    requires n < |rounds| && unresolved != [] && Starts(rounds[n])
    ensures
      var outcome := RoundOf(symbols, unresolved, |unresolved|, rounds[n], verdicts);
      LeadsTo(all, symbols, outcome.still, rounds, if outcome.end.Through? then n + 1 else n,
              outcome.verdicts, outcome.end.Through?)
  {
    StillAreUnresolved(symbols, unresolved, |unresolved|, rounds[n], verdicts);
  }

  lemma NoRoundLeft(all: map<nat, Verdict>, symbols: seq<Symbol>, unresolved: seq<nat>, rounds: seq<Round>, n: nat,
                    verdicts: map<nat, Verdict>, goOn: bool)
    requires LeadsTo(all, symbols, unresolved, rounds, n, verdicts, goOn)
    requires !goOn || n == |rounds| || unresolved == [] || !Starts(rounds[n])
    ensures all == verdicts && LeadsTo(all, symbols, unresolved, rounds, n, verdicts, false)
  {}

  // ---------------------------------------------------------------- the turns of a round

  /** The records without a verdict after the first `k` have been tried, all of them open. */
  ghost predicate Waiting(open: set<nat>, still: seq<nat>, unresolved: seq<nat>, k: nat) {
    && Distinct(still) && Distinct(unresolved)
    && (forall a :: 0 <= a < |still| ==> still[a] in open)
    && (forall j :: k <= j < |unresolved| ==> unresolved[j] in open)
    && forall a, j :: 0 <= a < |still| && k <= j < |unresolved| ==> still[a] != unresolved[j]
  }

  lemma RestIsWaiting(open: set<nat>, still: seq<nat>, unresolved: seq<nat>, k: nat)
    requires k <= |unresolved| && Waiting(open, still, unresolved, k)
    ensures Waiting(open, [], still + unresolved[k..], 0)
  {
    var all := still + unresolved[k..];
    forall a | |still| <= a < |all| ensures all[a] == unresolved[k + (a - |still|)] {}
  }

  lemma WaitingTurn(open: set<nat>, still: seq<nat>, unresolved: seq<nat>, k: nat)
    requires k < |unresolved| && Waiting(open, still, unresolved, k)
    ensures Waiting(open - {unresolved[k]}, still, unresolved, k + 1)
    ensures Waiting(open, still + [unresolved[k]], unresolved, k + 1)
  {}

  /** What the loop of a round has come to before record `k`. */
  ghost predicate RoundSoFar(symbols: seq<Symbol>, unresolved: seq<nat>, k: nat, round: Round,
                             verdicts: map<nat, Verdict>, noted: map<nat, Verdict>, still: seq<nat>, end: RoundEnd)
  {
    && k <= |unresolved| && (forall j :: 0 <= j < |unresolved| ==> unresolved[j] < |symbols|)
    && if end.Through? then RoundOf(symbols, unresolved, k, round, verdicts) ==
         RoundOutcome(noted, still, Through)
       else RoundOf(symbols, unresolved, |unresolved|, round, verdicts) ==
            RoundOutcome(noted, still + unresolved[k..], end)
  }

  lemma MissingResultEndsRound(symbols: seq<Symbol>, unresolved: seq<nat>, k: nat, round: Round,
                               verdicts: map<nat, Verdict>, noted: map<nat, Verdict>, still: seq<nat>)
    requires RoundSoFar(symbols, unresolved, k, round, verdicts, noted, still, Through) && k < |unresolved|
    requires symbols[unresolved[k]] !in round.results
    ensures RoundSoFar(symbols, unresolved, k, round, verdicts, noted, still, RoundStopped)
  {
    assert still + unresolved[k..] == still + [unresolved[k]] + unresolved[k + 1..];
    assert RoundOf(symbols, unresolved, k + 1, round, verdicts) ==
      RoundOutcome(noted, still + unresolved[k..], RoundStopped);
    RoundStaysOver(symbols, unresolved, k + 1, |unresolved|, round, verdicts);
  }

  lemma AttemptTurnsRound(symbols: seq<Symbol>, unresolved: seq<nat>, k: nat, round: Round, verdicts: map<nat, Verdict>,
                          before: map<nat, Verdict>, still: seq<nat>, r: Attempted, noted: map<nat, Verdict>,
                          after: seq<nat>, end: RoundEnd)
    requires RoundSoFar(symbols, unresolved, k, round, verdicts, before, still, Through) && k < |unresolved|
    requires
      var s := symbols[unresolved[k]];
      s in round.results && r == AttemptOf(round.results[s], round.averages(s))
    requires noted == WithVerdict(before, unresolved[k], r)
    requires after == if r.Applied? then still else still + [unresolved[k]]
    requires end == if r.Interrupted? || r == Applied(Breaks) then RoundRaised else Through
    ensures RoundSoFar(symbols, unresolved, k + 1, round, verdicts, noted, after, end)
  {
    if r.Interrupted? || r == Applied(Breaks) {
      assert !RoundOf(symbols, unresolved, k + 1, round, verdicts).end.Through?;
      RoundStaysOver(symbols, unresolved, k + 1, |unresolved|, round, verdicts);
    }
  }

  // ---------------------------------------------------------------- which boards decide

  /** A round brings a board that settles a symbol. */
  predicate SettledIn(round: Round, s: Symbol) {
    s in round.results && AttemptOf(round.results[s], round.averages(s)).Applied?
  }

  /** A round goes on after a symbol. */
  predicate Passes(round: Round, s: Symbol) {
    s in round.results && !AttemptOf(round.results[s], round.averages(s)).Interrupted?
    && AttemptOf(round.results[s], round.averages(s)) != Applied(Breaks)
  }

  /** No round before round `n` has settled the symbol. */
  predicate OpenAt(rounds: seq<Round>, s: Symbol, n: nat)
    requires n <= |rounds|
  {
    forall k :: 0 <= k < n ==> !SettledIn(rounds[k], s)
  }

  /** Indices of records. */
  ghost predicate Indices(symbols: seq<Symbol>, pending: seq<nat>) {
    forall k :: 0 <= k < |pending| ==> pending[k] < |symbols|
  }

  /** A round starts and goes on after every record that is still open. */
  ghost predicate Clean(symbols: seq<Symbol>, pending: seq<nat>, rounds: seq<Round>, n: nat)
    requires n < |rounds| && Indices(symbols, pending)
  {
    && Starts(rounds[n]) && !rounds[n].cutoff && !rounds[n].raises
    && forall q :: 0 <= q < |pending| && OpenAt(rounds, symbols[pending[q]], n) ==>
         Passes(rounds[n], symbols[pending[q]])
  }

  /** Round `n` comes to the board of the `p`-th record set aside: all rounds before went through, no board of
      theirs settled the record, and this round starts, goes on after the open records before it and has a
      result for it. */
  ghost predicate Reached(symbols: seq<Symbol>, pending: seq<nat>, rounds: seq<Round>, p: nat, n: nat)
    requires Indices(symbols, pending)
  {
    && n < |rounds| && p < |pending| && Starts(rounds[n]) && !rounds[n].cutoff && !rounds[n].raises
    && (forall k :: 0 <= k < n ==> Clean(symbols, pending, rounds, k))
    && OpenAt(rounds, symbols[pending[p]], n) && symbols[pending[p]] in rounds[n].results
    && (forall q :: 0 <= q < p && OpenAt(rounds, symbols[pending[q]], n) ==>
          Passes(rounds[n], symbols[pending[q]]))
  }

  function BoardAt(symbols: seq<Symbol>, pending: seq<nat>, rounds: seq<Round>, p: nat, n: nat): Attempted
    requires n < |rounds| && p < |pending| && pending[p] < |symbols| && symbols[pending[p]] in rounds[n].results
  {
    AttemptOf(rounds[n].results[symbols[pending[p]]], rounds[n].averages(symbols[pending[p]]))
  }

  /** The records still open before round `n`, in order. */
  function OpenOf(symbols: seq<Symbol>, pending: seq<nat>, rounds: seq<Round>, n: nat): seq<nat>
    requires n <= |rounds| && forall k :: 0 <= k < |pending| ==> pending[k] < |symbols|
  {
    if pending == [] then []
    else
      var last := pending[|pending| - 1];
      OpenOf(symbols, pending[..|pending| - 1], rounds, n) +
      (if OpenAt(rounds, symbols[last], n) then [last] else [])
  }

  lemma {:induction false} OpenMembers(symbols: seq<Symbol>, pending: seq<nat>, rounds: seq<Round>, n: nat)
    requires n <= |rounds| && Indices(symbols, pending) && Distinct(pending)
    ensures Distinct(OpenOf(symbols, pending, rounds, n))
      && Indices(symbols, OpenOf(symbols, pending, rounds, n))
    ensures forall x :: x in OpenOf(symbols, pending, rounds, n) <==>
      x in pending && x < |symbols| && OpenAt(rounds, symbols[x], n)
  {
    if pending != [] {
      var rest, last := pending[..|pending| - 1], pending[|pending| - 1];
      OpenMembers(symbols, rest, rounds, n);
      assert forall x :: x in pending <==> x in rest || x == last;
      assert last !in rest;
      var u := OpenOf(symbols, rest, rounds, n);
      forall k | 0 <= k < |u| ensures u[k] != last && u[k] < |symbols| {
        assert u[k] in u;
      }
    }
  }

  /** The place of an open record among the open ones. */
  lemma {:induction false} OpenPlace(symbols: seq<Symbol>, pending: seq<nat>, rounds: seq<Round>, n: nat, p: nat)
    requires n <= |rounds| && Indices(symbols, pending) && p < |pending|
      && OpenAt(rounds, symbols[pending[p]], n)
    ensures
      var u, before := OpenOf(symbols, pending, rounds, n),
        OpenOf(symbols, pending[..p], rounds, n);
      |before| < |u| && u[|before|] == pending[p] && u[..|before|] == before
  {
    var m := |pending| - 1;
    if p < m {
      OpenPlace(symbols, pending[..m], rounds, n, p);
      assert pending[..m][..p] == pending[..p];
    }
  }

  lemma {:induction false} ThroughIff(symbols: seq<Symbol>, u: seq<nat>, k: nat, round: Round,
                                      verdicts: map<nat, Verdict>)
    requires k <= |u| && Indices(symbols, u)
    ensures RoundOf(symbols, u, k, round, verdicts).end.Through? <==>
      forall j :: 0 <= j < k ==> Passes(round, symbols[u[j]])
  {
    if k > 0 {
      ThroughIff(symbols, u, k - 1, round, verdicts);
    }
  }

  /** A round gives a record its verdict exactly when it comes to it and its board settles it. */
  lemma {:induction false} RoundVerdict(symbols: seq<Symbol>, u: seq<nat>, k: nat, j: nat, round: Round,
                                        verdicts: map<nat, Verdict>)
    requires j < |u| && k <= |u| && Indices(symbols, u) && Distinct(u)
    ensures
      var after, s := RoundOf(symbols, u, k, round, verdicts).verdicts, symbols[u[j]];
      if j < k && (forall l :: 0 <= l < j ==> Passes(round, symbols[u[l]])) && SettledIn(round, s)
      then u[j] in after && Applied(after[u[j]]) == AttemptOf(round.results[s], round.averages(s))
      else Unchanged(u[j], verdicts, after)
  {
    if k > 0 {
      var so := RoundOf(symbols, u, k - 1, round, verdicts);
      RoundVerdict(symbols, u, k - 1, j, round, verdicts);
      ThroughIff(symbols, u, k - 1, round, verdicts);
      if so.end.Through? {
        TriedVerdict(so, u[k - 1], symbols[u[k - 1]], u[k..], round, u[j]);
      }
    }
  }

  lemma TriedVerdict(so: RoundOutcome, i: nat, s: Symbol, rest: seq<nat>, round: Round, x: nat)
    ensures
      var after := Tried(so, i, s, rest, round).verdicts;
      if x == i && SettledIn(round, s) then x in after
        && Applied(after[x]) == AttemptOf(round.results[s], round.averages(s))
      else Unchanged(x, so.verdicts, after)
  {}

  lemma {:induction false} RoundOther(symbols: seq<Symbol>, u: seq<nat>, k: nat, i: nat, round: Round,
                                      verdicts: map<nat, Verdict>)
    requires k <= |u| && Indices(symbols, u) && i !in u
    ensures Unchanged(i, verdicts, RoundOf(symbols, u, k, round, verdicts).verdicts)
  {
    if k > 0 {
      RoundOther(symbols, u, k - 1, i, round, verdicts);
      assert u[k - 1] in u;
    }
  }

  function Unsettled(symbols: seq<Symbol>, u: seq<nat>, round: Round): seq<nat>
    requires forall k :: 0 <= k < |u| ==> u[k] < |symbols|
  {
    if u == [] then []
    else
      var last := u[|u| - 1];
      Unsettled(symbols, u[..|u| - 1], round)
        + (if SettledIn(round, symbols[last]) then [] else [last])
  }

  lemma {:induction false} StillAreUnsettled(symbols: seq<Symbol>, u: seq<nat>, k: nat, round: Round,
                                             verdicts: map<nat, Verdict>)
    requires k <= |u| && Indices(symbols, u) && RoundOf(symbols, u, k, round, verdicts).end.Through?
    ensures RoundOf(symbols, u, k, round, verdicts).still == Unsettled(symbols, u[..k], round)
  {
    if k > 0 {
      StillAreUnsettled(symbols, u, k - 1, round, verdicts);
      assert u[..k][..k - 1] == u[..k - 1];
    }
  }

  lemma UnsettledTurn(symbols: seq<Symbol>, u: seq<nat>, last: nat, round: Round)
    requires Indices(symbols, u) && last < |symbols|
    ensures Unsettled(symbols, u + [last], round) ==
            Unsettled(symbols, u, round) + (if SettledIn(round, symbols[last]) then [] else [last])
  {
    assert (u + [last])[..|u|] == u;
  }

  lemma {:induction false} UnsettledAreOpen(symbols: seq<Symbol>, pending: seq<nat>, rounds: seq<Round>, n: nat)
    requires n < |rounds| && Indices(symbols, pending)
      && Indices(symbols, OpenOf(symbols, pending, rounds, n))
    ensures Unsettled(symbols, OpenOf(symbols, pending, rounds, n), rounds[n]) ==
            OpenOf(symbols, pending, rounds, n + 1)
  {
    if pending != [] {
      var rest, last := pending[..|pending| - 1], pending[|pending| - 1];
      var u := OpenOf(symbols, rest, rounds, n);
      assert forall k :: 0 <= k < |u| ==> u[k] == OpenOf(symbols, pending, rounds, n)[k];
      UnsettledAreOpen(symbols, rest, rounds, n);
      assert OpenAt(rounds, symbols[last], n + 1) <==>
        OpenAt(rounds, symbols[last], n) && !SettledIn(rounds[n], symbols[last]);
      if OpenAt(rounds, symbols[last], n) {
        UnsettledTurn(symbols, u, last, rounds[n]);
      } else {
        assert OpenOf(symbols, pending, rounds, n) == u;
      }
    }
  }

  /** What the rounds from `n` on are to do about the `p`-th record: it has a verdict exactly when some round comes
      to a board that settles it, and then that board's. */
  ghost predicate Decided(symbols: seq<Symbol>, pending: seq<nat>, rounds: seq<Round>, p: nat, n: nat,
                          after: map<nat, Verdict>)
    requires Indices(symbols, pending) && p < |pending|
  {
    && (pending[p] in after <==> exists m :: n <= m && Settles(symbols, pending, rounds, p, m))
    && (forall m :: n <= m && Settles(symbols, pending, rounds, p, m) ==>
          pending[p] in after && Applied(after[pending[p]]) == BoardAt(symbols, pending, rounds, p, m))
  }

  /** Round `n` comes to the record, and its board settles it. */
  ghost predicate Settles(symbols: seq<Symbol>, pending: seq<nat>, rounds: seq<Round>, p: nat, n: nat)
    requires Indices(symbols, pending)
  {
    Reached(symbols, pending, rounds, p, n) && BoardAt(symbols, pending, rounds, p, n).Applied?
  }

  /** The open records before one all pass exactly when the records set aside before it do, as far as they are open. */
  lemma EarlierPassIff(symbols: seq<Symbol>, pending: seq<nat>, rounds: seq<Round>, n: nat, p: nat)
    requires n < |rounds| && Indices(symbols, pending) && Distinct(pending) && p <= |pending|
    ensures Indices(symbols, OpenOf(symbols, pending[..p], rounds, n))
    ensures
      (forall x :: x in OpenOf(symbols, pending[..p], rounds, n) ==>
       Passes(rounds[n], symbols[x])) <==>
      (forall q :: 0 <= q < p && OpenAt(rounds, symbols[pending[q]], n) ==>
       Passes(rounds[n], symbols[pending[q]]))
  {
    OpenMembers(symbols, pending[..p], rounds, n);
    forall q | 0 <= q < p ensures pending[q] in pending[..p] {
      assert pending[..p][q] == pending[q];
    }
  }

  /** In a round that starts after clean ones, the open record gets its verdict exactly when the round settles it. */
  lemma OpenRecordInRound(symbols: seq<Symbol>, pending: seq<nat>, rounds: seq<Round>, n: nat, p: nat,
                          verdicts: map<nat, Verdict>)
    requires n < |rounds| && Indices(symbols, pending) && Distinct(pending) && p < |pending| && Starts(rounds[n])
    requires forall k :: 0 <= k < n ==> Clean(symbols, pending, rounds, k)
    requires OpenAt(rounds, symbols[pending[p]], n) && pending[p] !in verdicts
    requires Indices(symbols, OpenOf(symbols, pending, rounds, n))
    ensures
      var u := OpenOf(symbols, pending, rounds, n);
      var after := RoundOf(symbols, u, |u|, rounds[n], verdicts).verdicts;
      if Settles(symbols, pending, rounds, p, n)
      then pending[p] in after && Applied(after[pending[p]]) == BoardAt(symbols, pending, rounds, p, n)
      else pending[p] !in after
  {
    var u, before := OpenOf(symbols, pending, rounds, n), OpenOf(symbols, pending[..p], rounds, n);
    OpenMembers(symbols, pending, rounds, n);
    OpenPlace(symbols, pending, rounds, n, p);
    EarlierPassIff(symbols, pending, rounds, n, p);
    RoundVerdict(symbols, u, |u|, |before|, rounds[n], verdicts);
    PrefixPasses(symbols, u, before, rounds[n]);
  }

  lemma PrefixPasses(symbols: seq<Symbol>, u: seq<nat>, before: seq<nat>, round: Round)
    requires Indices(symbols, u) && |before| <= |u| && u[..|before|] == before
    ensures Indices(symbols, before)
    ensures (forall l :: 0 <= l < |before| ==> Passes(round, symbols[u[l]])) <==>
            (forall x :: x in before ==> Passes(round, symbols[x]))
  {
    assert forall l :: 0 <= l < |before| ==> before[l] == u[l] && before[l] in before;
  }

  /** A round is clean exactly when it starts and gets through. */
  lemma CleanIff(symbols: seq<Symbol>, pending: seq<nat>, rounds: seq<Round>, n: nat, verdicts: map<nat, Verdict>)
    requires n < |rounds| && Indices(symbols, pending) && Distinct(pending)
    ensures Indices(symbols, OpenOf(symbols, pending, rounds, n))
    ensures
      var u := OpenOf(symbols, pending, rounds, n);
      Clean(symbols, pending, rounds, n) <==>
        Starts(rounds[n]) && RoundOf(symbols, u, |u|, rounds[n], verdicts).end.Through?
  {
    var u := OpenOf(symbols, pending, rounds, n);
    OpenMembers(symbols, pending, rounds, n);
    EarlierPassIff(symbols, pending, rounds, n, |pending|);
    assert pending[..|pending|] == pending;
    ThroughIff(symbols, u, |u|, rounds[n], verdicts);
    assert forall j :: 0 <= j < |u| ==> u[j] in u;
  }

  /** Nothing is settled when the rounds end before they begin. */
  lemma NothingSettles(symbols: seq<Symbol>, pending: seq<nat>, rounds: seq<Round>, n: nat, p: nat)
    requires n <= |rounds| && Indices(symbols, pending) && Distinct(pending) && p < |pending|
    requires n == |rounds| || OpenOf(symbols, pending, rounds, n) == [] || !Starts(rounds[n])
    ensures forall m :: n <= m ==> !Settles(symbols, pending, rounds, p, m)
  {
    OpenMembers(symbols, pending, rounds, n);
    assert pending[p] in pending;
    assert OpenOf(symbols, pending, rounds, n) == [] ==> !OpenAt(rounds, symbols[pending[p]], n);
    assert n < |rounds| && !Starts(rounds[n]) ==> !Clean(symbols, pending, rounds, n);
    forall m | n <= m ensures !Settles(symbols, pending, rounds, p, m) {}
  }

  /** After a round that is not clean there is no other. */
  lemma NoRoundAfter(symbols: seq<Symbol>, pending: seq<nat>, rounds: seq<Round>, n: nat, p: nat)
    requires n < |rounds| && Indices(symbols, pending) && p < |pending| && !Clean(symbols, pending, rounds, n)
    ensures forall m :: n < m ==> !Settles(symbols, pending, rounds, p, m)
  {
    forall m | n < m ensures !Settles(symbols, pending, rounds, p, m) {}
  }

  /** A record settled in one round is not open in a later one. */
  lemma SettledOnce(symbols: seq<Symbol>, pending: seq<nat>, rounds: seq<Round>, n: nat, p: nat)
    requires n < |rounds| && Indices(symbols, pending) && p < |pending|
      && SettledIn(rounds[n], symbols[pending[p]])
    ensures forall m :: n < m ==> !Settles(symbols, pending, rounds, p, m)
  {
    forall m | n < m ensures !Settles(symbols, pending, rounds, p, m) {}
  }

  /** Without another round the verdicts stay as they are. */
  lemma NothingDecides(symbols: seq<Symbol>, pending: seq<nat>, rounds: seq<Round>, n: nat, p: nat,
                       verdicts: map<nat, Verdict>)
    requires n <= |rounds| && Indices(symbols, pending) && Distinct(pending) && p < |pending|
    requires n == |rounds| || OpenOf(symbols, pending, rounds, n) == [] || !Starts(rounds[n])
    ensures DecidedFrom(symbols, pending, rounds, n, p, verdicts, verdicts)
  {
    NothingSettles(symbols, pending, rounds, n, p);
  }

  /** A round decides when the later ones do, if it leads to them. */
  lemma RoundDecides(symbols: seq<Symbol>, pending: seq<nat>, rounds: seq<Round>, n: nat, p: nat,
                     verdicts: map<nat, Verdict>, outcome: RoundOutcome, after: map<nat, Verdict>)
    requires n < |rounds| && Indices(symbols, pending) && Distinct(pending) && p < |pending| && Starts(rounds[n])
    requires forall k :: 0 <= k < n ==> Clean(symbols, pending, rounds, k)
    requires
      var u := OpenOf(symbols, pending, rounds, n);
      u != [] && Indices(symbols, u) && outcome == RoundOf(symbols, u, |u|, rounds[n], verdicts)
    requires if outcome.end.Through?
      then DecidedFrom(symbols, pending, rounds, n + 1, p, outcome.verdicts, after)
             else after == outcome.verdicts
    ensures DecidedFrom(symbols, pending, rounds, n, p, verdicts, after)
  {
    CleanIff(symbols, pending, rounds, n, verdicts);
    RoundGives(symbols, pending, rounds, n, p, verdicts);
    if outcome.end.Through? {
      NextRoundDecides(symbols, pending, rounds, n, p, verdicts, outcome.verdicts, after);
    } else {
      LastRoundDecides(symbols, pending, rounds, n, p, verdicts, outcome.verdicts);
    }
  }

  lemma {:induction false} VerdictsFromIff(symbols: seq<Symbol>, pending: seq<nat>, rounds: seq<Round>, n: nat, p: nat,
                                           verdicts: map<nat, Verdict>, all: map<nat, Verdict>)
    requires n <= |rounds| && Indices(symbols, pending) && Distinct(pending) && p < |pending|
    requires forall k :: 0 <= k < n ==> Clean(symbols, pending, rounds, k)
    requires Indices(symbols, OpenOf(symbols, pending, rounds, n))
    requires all == VerdictsFrom(symbols, OpenOf(symbols, pending, rounds, n), rounds, n, verdicts)
    ensures DecidedFrom(symbols, pending, rounds, n, p, verdicts, all)
    decreases |rounds| - n
  {
    var u := OpenOf(symbols, pending, rounds, n);
    if n == |rounds| || u == [] || !Starts(rounds[n]) {
      assert all == verdicts;
      NothingDecides(symbols, pending, rounds, n, p, verdicts);
    } else {
      var outcome := RoundOf(symbols, u, |u|, rounds[n], verdicts);
      if outcome.end.Through? {
        CleanIff(symbols, pending, rounds, n, verdicts);
        RoundGoesOn(symbols, pending, rounds, n, verdicts);
        VerdictsFromIff(symbols, pending, rounds, n + 1, p, outcome.verdicts, all);
      }
      RoundDecides(symbols, pending, rounds, n, p, verdicts, outcome, all);
    }
  }

  /** What the rounds from `n` on make of the verdict of one record, starting from some verdicts. */
  ghost predicate DecidedFrom(symbols: seq<Symbol>, pending: seq<nat>, rounds: seq<Round>, n: nat, p: nat,
                              verdicts: map<nat, Verdict>, after: map<nat, Verdict>)
    requires n <= |rounds| && Indices(symbols, pending) && p < |pending|
  {
    if OpenAt(rounds, symbols[pending[p]], n)
    then pending[p] !in verdicts ==> Decided(symbols, pending, rounds, p, n, after)
    else Unchanged(pending[p], verdicts, after)
  }

  /** A clean round hands the records still open to the next one. */
  lemma RoundGoesOn(symbols: seq<Symbol>, pending: seq<nat>, rounds: seq<Round>, n: nat, verdicts: map<nat, Verdict>)
    requires n < |rounds| && Indices(symbols, pending) && Distinct(pending) && Starts(rounds[n])
    requires Indices(symbols, OpenOf(symbols, pending, rounds, n))
      && OpenOf(symbols, pending, rounds, n) != []
    requires
      var u := OpenOf(symbols, pending, rounds, n);
      RoundOf(symbols, u, |u|, rounds[n], verdicts).end.Through?
    ensures Indices(symbols, OpenOf(symbols, pending, rounds, n + 1))
    ensures
      var u := OpenOf(symbols, pending, rounds, n);
      VerdictsFrom(symbols, u, rounds, n, verdicts) ==
      VerdictsFrom(symbols, OpenOf(symbols, pending, rounds, n + 1), rounds, n + 1,
                   RoundOf(symbols, u, |u|, rounds[n], verdicts).verdicts)
  {
    StillAreOpenNext(symbols, pending, rounds, n, verdicts);
  }

  /** After a round that is not clean, the verdicts stay as they are. */
  lemma LastRoundDecides(symbols: seq<Symbol>, pending: seq<nat>, rounds: seq<Round>, n: nat, p: nat,
                         verdicts: map<nat, Verdict>, after: map<nat, Verdict>)
    requires n < |rounds| && Indices(symbols, pending) && p < |pending| && !Clean(symbols, pending, rounds, n)
    requires GivenIn(symbols, pending, rounds, n, p, verdicts, after)
    ensures DecidedFrom(symbols, pending, rounds, n, p, verdicts, after)
  {
    NoRoundAfter(symbols, pending, rounds, n, p);
  }

  /** What round `n` makes of the verdict of one record. */
  lemma RoundGives(symbols: seq<Symbol>, pending: seq<nat>, rounds: seq<Round>, n: nat, p: nat,
                   verdicts: map<nat, Verdict>)
    requires n < |rounds| && Indices(symbols, pending) && Distinct(pending) && p < |pending| && Starts(rounds[n])
    requires forall k :: 0 <= k < n ==> Clean(symbols, pending, rounds, k)
    requires Indices(symbols, OpenOf(symbols, pending, rounds, n))
    ensures
      var u := OpenOf(symbols, pending, rounds, n);
      GivenIn(symbols, pending, rounds, n, p, verdicts,
              RoundOf(symbols, u, |u|, rounds[n], verdicts).verdicts)
  {
    if OpenAt(rounds, symbols[pending[p]], n) {
      if pending[p] !in verdicts {
        OpenRecordInRound(symbols, pending, rounds, n, p, verdicts);
      }
    } else {
      var u := OpenOf(symbols, pending, rounds, n);
      OpenMembers(symbols, pending, rounds, n);
      RoundOther(symbols, u, |u|, pending[p], rounds[n], verdicts);
    }
  }

  ghost predicate GivenIn(symbols: seq<Symbol>, pending: seq<nat>, rounds: seq<Round>, n: nat, p: nat,
                          verdicts: map<nat, Verdict>, after: map<nat, Verdict>)
    requires n < |rounds| && Indices(symbols, pending) && p < |pending|
  {
    if OpenAt(rounds, symbols[pending[p]], n) then
      pending[p] !in verdicts ==>
        if Settles(symbols, pending, rounds, p, n)
        then pending[p] in after && Applied(after[pending[p]]) == BoardAt(symbols, pending, rounds, p, n)
        else pending[p] !in after
    else Unchanged(pending[p], verdicts, after)
  }

  ghost predicate Unchanged(i: nat, before: map<nat, Verdict>, after: map<nat, Verdict>) {
    (i in after <==> i in before) && (i in before ==> after[i] == before[i])
  }

  lemma StillAreOpenNext(symbols: seq<Symbol>, pending: seq<nat>, rounds: seq<Round>, n: nat,
                         verdicts: map<nat, Verdict>)
    requires n < |rounds| && Indices(symbols, pending) && Distinct(pending)
    requires Indices(symbols, OpenOf(symbols, pending, rounds, n))
    requires
      var u := OpenOf(symbols, pending, rounds, n);
      RoundOf(symbols, u, |u|, rounds[n], verdicts).end.Through?
    ensures
      var u := OpenOf(symbols, pending, rounds, n);
      RoundOf(symbols, u, |u|, rounds[n], verdicts).still == OpenOf(symbols, pending, rounds, n + 1)
    ensures Indices(symbols, OpenOf(symbols, pending, rounds, n + 1))
  {
    var u := OpenOf(symbols, pending, rounds, n);
    StillAreAllUnsettled(symbols, u, rounds[n], verdicts);
    UnsettledAreOpen(symbols, pending, rounds, n);
    OpenMembers(symbols, pending, rounds, n + 1);
  }

  lemma StillAreAllUnsettled(symbols: seq<Symbol>, u: seq<nat>, round: Round, verdicts: map<nat, Verdict>)
    requires Indices(symbols, u) && RoundOf(symbols, u, |u|, round, verdicts).end.Through?
    ensures RoundOf(symbols, u, |u|, round, verdicts).still == Unsettled(symbols, u, round)
  {
    StillAreUnsettled(symbols, u, |u|, round, verdicts);
    assert u[..|u|] == u;
  }

  /** What a clean round and the rounds after it decide together. */
  lemma NextRoundDecides(symbols: seq<Symbol>, pending: seq<nat>, rounds: seq<Round>, n: nat, p: nat,
                         verdicts: map<nat, Verdict>, between: map<nat, Verdict>, after: map<nat, Verdict>)
    requires n < |rounds| && Indices(symbols, pending) && p < |pending| && Clean(symbols, pending, rounds, n)
    requires forall k :: 0 <= k < n ==> Clean(symbols, pending, rounds, k)
    requires GivenIn(symbols, pending, rounds, n, p, verdicts, between)
    requires DecidedFrom(symbols, pending, rounds, n + 1, p, between, after)
    ensures DecidedFrom(symbols, pending, rounds, n, p, verdicts, after)
  {
    var s := symbols[pending[p]];
    if OpenAt(rounds, s, n) && pending[p] !in verdicts {
      assert Passes(rounds[n], s);
      assert Reached(symbols, pending, rounds, p, n);
      assert OpenAt(rounds, s, n + 1) <==> !SettledIn(rounds[n], s);
      if SettledIn(rounds[n], s) {
        SettledOnce(symbols, pending, rounds, n, p);
      } else {
        assert !Settles(symbols, pending, rounds, p, n);
      }
    } else if !OpenAt(rounds, s, n) {
      assert !OpenAt(rounds, s, n + 1);
    }
  }

  lemma OpenExtends(symbols: seq<Symbol>, rest: seq<nat>, last: nat, rounds: seq<Round>, n: nat)
    requires n <= |rounds| && Indices(symbols, rest) && last < |symbols|
    ensures OpenOf(symbols, rest + [last], rounds, n) ==
            OpenOf(symbols, rest, rounds, n) + if OpenAt(rounds, symbols[last], n) then [last]
              else []
  {
    assert (rest + [last])[..|rest|] == rest;
  }

  lemma {:induction false} AllAreOpenAtFirst(symbols: seq<Symbol>, pending: seq<nat>, rounds: seq<Round>)
    requires Indices(symbols, pending)
    ensures OpenOf(symbols, pending, rounds, 0) == pending
  {
    if pending != [] {
      var rest, last := pending[..|pending| - 1], pending[|pending| - 1];
      assert pending == rest + [last];
      OpenExtends(symbols, rest, last, rounds, 0);
      AllAreOpenAtFirst(symbols, rest, rounds);
    }
  }

  /** A record set aside gets a verdict exactly when some round comes to a board that settles it, and the verdict
      is that of this board. */
  lemma VerdictIff(symbols: seq<Symbol>, pending: seq<nat>, rounds: seq<Round>, p: nat)
    requires Indices(symbols, pending) && Distinct(pending) && p < |pending|
    ensures Decided(symbols, pending, rounds, p, 0, VerdictsOf(symbols, pending, rounds))
  {
    AllAreOpenAtFirst(symbols, pending, rounds);
    VerdictsFromIff(symbols, pending, rounds, 0, p, map[], VerdictsOf(symbols, pending, rounds));
  }

  /** A board with a turnover or an average that is no number. */
  predicate CannotBeRead(fetch: BoardFetch, average: AverageFetch) {
    fetch.Fetched? &&
    var turnover := TurnoverOf(fetch.board);
    && turnover.Ok? && turnover.value.Some?
    && (turnover.value.value.Unreadable? || average == AverageIs(Some(Unreadable)))
  }

  lemma BreaksIff(fetch: BoardFetch, average: AverageFetch)
    ensures AttemptOf(fetch, average) == Applied(Breaks) <==> CannotBeRead(fetch, average)
  {}

  /** Every board that a round comes to can be read. */
  ghost predicate AllReadable(symbols: seq<Symbol>, pending: seq<nat>, rounds: seq<Round>)
    requires Indices(symbols, pending)
  {
    forall p: nat, n: nat :: Reached(symbols, pending, rounds, p, n) ==>
      !CannotBeRead(rounds[n].results[symbols[pending[p]]], rounds[n].averages(symbols[pending[p]]))
  }

  /** Only records set aside get verdicts. */
  lemma {:induction false} OthersHaveNone(symbols: seq<Symbol>, u: seq<nat>, rounds: seq<Round>, n: nat,
                                          verdicts: map<nat, Verdict>, i: nat)
    requires n <= |rounds| && Indices(symbols, u) && i !in verdicts
    ensures i in VerdictsFrom(symbols, u, rounds, n, verdicts) ==> i in u
    decreases |rounds| - n
  {
    if n < |rounds| && i !in u {
      StillAreUnresolved(symbols, u, |u|, rounds[n], verdicts);
      RoundOther(symbols, u, |u|, i, rounds[n], verdicts);
      var outcome := RoundOf(symbols, u, |u|, rounds[n], verdicts);
      OthersHaveNone(symbols, outcome.still, rounds, n + 1, outcome.verdicts, i);
    }
  }

  /** No verdict breaks off if and only if every board that a round comes to can be read. */
  lemma NothingBreaksIff(symbols: seq<Symbol>, pending: seq<nat>, rounds: seq<Round>)
    requires Indices(symbols, pending) && Distinct(pending)
    ensures
      var verdicts := VerdictsOf(symbols, pending, rounds);
      (forall i :: i in verdicts ==> !verdicts[i].Breaks?) <==> AllReadable(symbols, pending, rounds)
  {
    var verdicts := VerdictsOf(symbols, pending, rounds);
    forall p: nat, n: nat | Reached(symbols, pending, rounds, p, n)
      ensures CannotBeRead(rounds[n].results[symbols[pending[p]]], rounds[n].averages(symbols[pending[p]])) ==>
        pending[p] in verdicts && verdicts[pending[p]].Breaks?
    {
      BreaksIff(rounds[n].results[symbols[pending[p]]], rounds[n].averages(symbols[pending[p]]));
      VerdictIff(symbols, pending, rounds, p);
      assert BoardAt(symbols, pending, rounds, p, n) == Applied(Breaks) ==>
        Settles(symbols, pending, rounds, p, n);
    }
    forall i | i in verdicts && verdicts[i].Breaks? ensures !AllReadable(symbols, pending, rounds) {
      OthersHaveNone(symbols, pending, rounds, 0, map[], i);
      var p :| 0 <= p < |pending| && pending[p] == i;
      VerdictIff(symbols, pending, rounds, p);
      var m :| 0 <= m && Settles(symbols, pending, rounds, p, m);
      BreaksIff(rounds[m].results[symbols[i]], rounds[m].averages(symbols[i]));
      assert Reached(symbols, pending, rounds, p, m);
    }
  }
}
