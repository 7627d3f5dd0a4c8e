/** The bookkeeping of the morning filter (src/application/filtering_usecase.py, `execute`). */
module Filtering {
  import opened Common
  import opened FilteringRounds

  /** What happens while one symbol is scanned: its data, and whether each look at the clock is too late. */
  datatype Visit = Visit(lateBefore: bool, fetch: BoardFetch, lateBetween: bool, average: AverageFetch, lateAfter: bool,
                         pastTurnover: AverageFetch)

  datatype Reason =
    | AverageMissing | AverageNonPositive | BoardFetchFailed | CurrentPriceMissing | TurnoverMissing | NoTrades
    | TimeLimit

  datatype Status = Evaluated | Skipped | Partial | NotEvaluated

  datatype Record = Record(symbol: Symbol, status: Status, reason: Option<Reason>, ratio: Option<real>)

  datatype Candidate = Candidate(symbol: Symbol, ratio: real)

  /** A skip, with the reason as the diagnostics have it. */
  datatype Skip = Skip(symbol: Symbol, reason: Reason)

  function SkippedRecord(s: Symbol, reason: Reason): Record {
    Record(s, Skipped, Some(reason), None)
  }

  function ScoredRecord(s: Symbol, ratio: real, noTrades: bool): Record {
    Record(s, Evaluated, if noTrades then Some(NoTrades) else None, Some(ratio))
  }

  /** The record of a symbol on a past date, unless an unreadable value raises. */
  function PastRecord(s: Symbol, v: Visit): Option<Record> {
    if v.pastTurnover.AverageRaises? || v.average.AverageRaises? || v.pastTurnover.average.None?
      || v.average.average.None?
    then Some(SkippedRecord(s, AverageMissing))
    else
      match Assess(v.pastTurnover.average.value, None, v.average)
      case NonPositive => Some(SkippedRecord(s, AverageNonPositive))
      case Ratio(ratio, noTrades) => Some(ScoredRecord(s, ratio, noTrades))
      case _ => None
  }

  /** The record of a symbol with a turnover today. */
  function TurnoverRecord(s: Symbol, v: Visit, turnover: Reading, volume: Option<Reading>): Option<Record> {
    if turnover.Unreadable? then None
    else if v.lateBetween then Some(Record(s, Partial, Some(TimeLimit), None))
    else
      match Assess(turnover, volume, v.average)
      case Breaks => None
      case NoAverage => Some(SkippedRecord(s, AverageMissing))
      case NonPositive => Some(SkippedRecord(s, AverageNonPositive))
      case Ratio(ratio, noTrades) => Some(ScoredRecord(s, ratio, noTrades))
  }

  /** The record of a symbol today, from its board. */
  function LiveRecord(s: Symbol, v: Visit): Option<Record> {
    if !v.fetch.Fetched? then Some(SkippedRecord(s, BoardFetchFailed))
    else
      var board := v.fetch.board;
      var turnover := TurnoverOf(board);
      if turnover.Raised? then None
      else if turnover.value.Some? then TurnoverRecord(s, v, turnover.value.value, board.volume)
      else Some(SkippedRecord(s, if board.volume.Some? && board.price.None? then CurrentPriceMissing
                              else TurnoverMissing))
  }

  function RecordOf(s: Symbol, v: Visit, past: bool): (r: Option<Record>)
    ensures r.Some? ==> r.value.symbol == s
  {
    if past then PastRecord(s, v) else LiveRecord(s, v)
  }

  /** How a visit ends: with the next symbol, with the deadline, or with an exception. */
  datatype VisitEnd = GoOn | Stop | Raise

  /** Today the deadline is looked at twice more: before the average is fetched, and after a candidate is scored. */
  function EndOf(s: Symbol, v: Visit, past: bool): VisitEnd {
    var r := RecordOf(s, v, past);
    if r.None? then Raise
    else if !past && (r.value.status.Partial? || (r.value.status.Evaluated? && v.lateAfter)) then Stop
    else GoOn
  }

  /** A board without a turnover, and without a hint at a missing price, is set aside to be fetched again. */
  predicate SetsAside(v: Visit, past: bool, retryActive: bool) {
    && !past && retryActive && v.fetch.Fetched? && TurnoverOf(v.fetch.board) == Ok(None)
    && !(v.fetch.board.volume.Some? && v.fetch.board.price.None?)
  }

  datatype ScanEnd = Finished | CutShort(next: nat) | Broken

  /** How the scan ends from symbol `i` on. */
  function ScanOf(symbols: seq<Symbol>, visits: seq<Visit>, past: bool, i: nat): ScanEnd
    requires i <= |symbols| == |visits|
    decreases |symbols| - i
  {
    if i == |symbols| then Finished
    else if visits[i].lateBefore then CutShort(i)
    else
      match EndOf(symbols[i], visits[i], past)
      case Raise => Broken
      case Stop => CutShort(i + 1)
      case GoOn => ScanOf(symbols, visits, past, i + 1)
  }

  /** The records set aside among the first `n`. */
  function PendingOf(visits: seq<Visit>, past: bool, retryActive: bool, n: nat): seq<nat>
    requires n <= |visits|
  {
    if n == 0 then []
    else PendingOf(visits, past, retryActive, n - 1)
         + (if SetsAside(visits[n - 1], past, retryActive) then [n - 1] else [])
  }

  // ---------------------------------------------------------------- the balance

  /** Candidate `k` was scored from record `from[k]`, every record at most once. */
  ghost predicate ScoredFrom(records: seq<Record>, scored: seq<Candidate>, from: seq<nat>) {
    && |from| == |scored| && Distinct(from)
    && forall k :: 0 <= k < |from| ==>
         && from[k] < |records| && records[from[k]].status.Evaluated?
         && records[from[k]].symbol == scored[k].symbol && records[from[k]].ratio == Some(scored[k].ratio)
  }

  /** Skip `k` was taken from record `from[k]`, every record at most once. */
  ghost predicate SkippedFrom(records: seq<Record>, skips: seq<Skip>, from: seq<nat>) {
    && |from| == |skips| && Distinct(from)
    && forall k :: 0 <= k < |from| ==>
         && from[k] < |records| && records[from[k]].status.Skipped?
         && records[from[k]].symbol == skips[k].symbol && records[from[k]].reason == Some(skips[k].reason)
  }

  /** Every evaluated record has been scored, except those in `stuck`, and every skipped one is among the
      skips, except those in `open`, which wait to be fetched again. */
  ghost predicate Covered(records: seq<Record>, scoredFrom: seq<nat>, skippedFrom: seq<nat>, open: set<nat>,
                          stuck: set<nat>) {
    forall i :: 0 <= i < |records| ==>
      && (records[i].status.Evaluated? ==> (i in scoredFrom <==> i !in stuck))
      && (records[i].status.Skipped? ==> (i in skippedFrom <==> i !in open))
      && (i in open ==> records[i] == SkippedRecord(records[i].symbol, TurnoverMissing))
      && (i in stuck ==> records[i].status.Evaluated? && records[i].ratio.None?)
  }

  function Symbols(records: seq<Record>): seq<Symbol> {
    seq(|records|, i requires 0 <= i < |records| => records[i].symbol)
  }

  class FilteringRun {
    var diagnostics: seq<Record>
    var scored: seq<Candidate>
    var skips: seq<Skip>
    var pending: seq<nat>
    ghost var scoredFrom: seq<nat>
    ghost var skippedFrom: seq<nat>
    ghost var open: set<nat>
    ghost var stuck: set<nat>

    ghost predicate Balanced()
      reads this
    {
      && ScoredFrom(diagnostics, scored, scoredFrom)
      && SkippedFrom(diagnostics, skips, skippedFrom)
      && Covered(diagnostics, scoredFrom, skippedFrom, open, stuck)
      && (forall i :: i in open ==> i < |diagnostics|)
      && (forall i :: i in stuck ==> i < |diagnostics|)
    }

    constructor ()
      ensures Balanced() && diagnostics == [] && scored == [] && skips == [] && pending == [] && open == {}
        && stuck == {}
    {
      diagnostics, scored, skips, pending := [], [], [], [];
      scoredFrom, skippedFrom, open, stuck := [], [], {}, {};
    }

    method AppendSkipped(s: Symbol, reason: Reason)
      requires Balanced()
      modifies this
      ensures Balanced() && open == old(open) && stuck == old(stuck) && pending == old(pending)
      ensures diagnostics == old(diagnostics) + [SkippedRecord(s, reason)]
    {
      diagnostics := diagnostics + [Record(s, Skipped, Some(reason), None)];
      skips := skips + [Skip(s, reason)];
      skippedFrom := skippedFrom + [|diagnostics| - 1];
    }

    method AppendScored(s: Symbol, ratio: real, noTrades: bool)
      requires Balanced()
      modifies this
      ensures Balanced() && open == old(open) && stuck == old(stuck) && pending == old(pending)
      ensures diagnostics == old(diagnostics) + [ScoredRecord(s, ratio, noTrades)]
    {
      diagnostics := diagnostics + [Record(s, Evaluated, if noTrades then Some(NoTrades) else None, Some(ratio))];
      scored := scored + [Candidate(s, ratio)];
      scoredFrom := scoredFrom + [|diagnostics| - 1];
    }

    method AppendPending(s: Symbol)
      requires Balanced()
      modifies this
      ensures Balanced() && open == old(open) + {|old(diagnostics)|} && stuck == old(stuck)
      ensures pending == old(pending) + [|old(diagnostics)|]
      ensures diagnostics == old(diagnostics) + [Record(s, Skipped, Some(TurnoverMissing), None)]
    {
      diagnostics := diagnostics + [Record(s, Skipped, Some(TurnoverMissing), None)];
      pending := pending + [|diagnostics| - 1];
      open := open + {|diagnostics| - 1};
    }

    method AppendUnfinished(s: Symbol, status: Status)
      requires Balanced() && (status.Partial? || status.NotEvaluated?)
      modifies `diagnostics
      ensures Balanced()
      ensures diagnostics == old(diagnostics) + [Record(s, status, Some(TimeLimit), None)]
    {
      diagnostics := diagnostics + [Record(s, status, Some(TimeLimit), None)];
    }

    // -------------------------------------------------------------- the scan

    /** A past date: turnover and average of the day come from the daily data. */
    method VisitPast(s: Symbol, v: Visit) returns (end: VisitEnd)
      requires Balanced()
      modifies this
      ensures Balanced() && open == old(open) && stuck == old(stuck) && pending == old(pending)
      ensures end == EndOf(s, v, true)
      ensures Adds(old(diagnostics), diagnostics, PastRecord(s, v), end)
    {
      if v.pastTurnover.AverageRaises? || v.average.AverageRaises? || v.pastTurnover.average.None?
        || v.average.average.None? {
        AppendSkipped(s, AverageMissing);
        return GoOn;
      }
      end := GoOn;
      match Assess(v.pastTurnover.average.value, None, v.average)
      case NonPositive => AppendSkipped(s, AverageNonPositive);
      case Ratio(ratio, noTrades) => AppendScored(s, ratio, noTrades);
      case _ => end := Raise;
    }

    /** A board with a turnover: it is assessed unless the deadline has passed. */
    method VisitTurnover(s: Symbol, v: Visit, turnover: Reading, volume: Option<Reading>) returns (end: VisitEnd)
      requires Balanced()
      modifies this
      ensures Balanced() && open == old(open) && stuck == old(stuck) && pending == old(pending)
      ensures Adds(old(diagnostics), diagnostics, TurnoverRecord(s, v, turnover, volume), end)
      ensures end.Stop? <==>
        var r := TurnoverRecord(s, v, turnover, volume);
        r.Some? && (r.value.status.Partial? || (r.value.status.Evaluated? && v.lateAfter))
    {
      if turnover.Unreadable? {
        return Raise;
      }
      if v.lateBetween {
        AppendUnfinished(s, Partial);
        return Stop;
      }
      end := GoOn;
      match Assess(turnover, volume, v.average)
      case Breaks => end := Raise;
      case NoAverage => AppendSkipped(s, AverageMissing);
      case NonPositive => AppendSkipped(s, AverageNonPositive);
      case Ratio(ratio, noTrades) =>
        AppendScored(s, ratio, noTrades);
        if v.lateAfter {
          end := Stop;
        }
    }

    /** Today: turnover and average come from the board. Without a turnover the symbol may be set aside. */
    method VisitLive(s: Symbol, v: Visit, retryActive: bool) returns (end: VisitEnd)
      requires Balanced() && PendingIsOpen()
      modifies this
      ensures Balanced() && PendingIsOpen() && stuck == old(stuck)
      ensures end == EndOf(s, v, false)
      ensures Adds(old(diagnostics), diagnostics, LiveRecord(s, v), end)
      ensures pending == old(pending) + (if SetsAside(v, false, retryActive) then [|old(diagnostics)|] else [])
    {
      if !v.fetch.Fetched? {
        AppendSkipped(s, BoardFetchFailed);
        return GoOn;
      }
      var board := v.fetch.board;
      var turnover := TurnoverOf(board);
      if turnover.Raised? {
        return Raise;
      }
      if turnover.value.Some? {
        end := VisitTurnover(s, v, turnover.value.value, board.volume);
        return;
      }
      if board.volume.Some? && board.price.None? {
        AppendSkipped(s, CurrentPriceMissing);
      } else if retryActive {
        AppendPending(s);
      } else {
        AppendSkipped(s, TurnoverMissing);
      }
      end := GoOn;
    }

    /** The pending records, once each, are those still open. */
    ghost predicate PendingIsOpen()
      reads this
    {
      Distinct(pending) && forall i :: i in open <==> i in pending
    }

    method VisitSymbol(s: Symbol, v: Visit, past: bool, retryActive: bool) returns (end: VisitEnd)
      requires Balanced() && PendingIsOpen()
      modifies this
      ensures Balanced() && PendingIsOpen() && stuck == old(stuck)
      ensures end == EndOf(s, v, past)
      ensures Adds(old(diagnostics), diagnostics, RecordOf(s, v, past), end)
      ensures pending == old(pending) + (if SetsAside(v, past, retryActive) then [|old(diagnostics)|] else [])
    {
      if past {
        end := VisitPast(s, v);
      } else {
        end := VisitLive(s, v, retryActive);
      }
    }

    /** Scans the symbols in order until the deadline or an error, as the visits decide; every scanned symbol
        has one record, and those without a turnover are set aside. */
    method Scan(symbols: seq<Symbol>, visits: seq<Visit>, past: bool, retryActive: bool) returns (end: ScanEnd)
      requires |visits| == |symbols|
      requires Balanced() && PendingIsOpen() && diagnostics == [] && pending == [] && stuck == {}
      modifies this
      ensures Balanced() && PendingIsOpen() && stuck == {}
      ensures ScanShows(end, diagnostics, pending, symbols, visits, past, retryActive)
    {
      var i, going := 0, true;
      end := Finished;
      while going && i < |symbols|
        invariant i <= |symbols| && Balanced() && PendingIsOpen() && stuck == {}
        invariant going ==> end.Finished? && Scanned(diagnostics, pending, symbols, visits, past, retryActive, i)
        invariant !going ==> !end.Finished? && ScanShows(end, diagnostics, pending, symbols, visits, past, retryActive)
        decreases |symbols| - i, if going then 1 else 0
      {
        if visits[i].lateBefore {
          end, going := CutShort(i), false;
        } else {
          ghost var before, aside := diagnostics, pending;
          var one := VisitSymbol(symbols[i], visits[i], past, retryActive);
          ScanTurn(before, diagnostics, aside, pending, symbols, visits, past, retryActive, i, one);
          end := if one.Raise? then Broken else if one.Stop? then CutShort(i + 1) else Finished;
          going := one.GoOn?;
          i := i + 1;
        }
      }
      assert symbols[..|symbols|] == symbols;
    }

    // -------------------------------------------------------------- fetching again

    /** A record set aside turns out to have no usable average. */
    method ResolveSkipped(i: nat, reason: Reason)
      requires Balanced() && i in open
      modifies `diagnostics, `skips, `skippedFrom, `open
      ensures Balanced() && open == old(open) - {i}
      ensures diagnostics == old(diagnostics)[i := Record(old(diagnostics)[i].symbol, Skipped, Some(reason), None)]
    {
      diagnostics := diagnostics[i := Record(diagnostics[i].symbol, Skipped, Some(reason), None)];
      skips := skips + [Skip(diagnostics[i].symbol, reason)];
      skippedFrom := skippedFrom + [i];
      open := open - {i};
    }

    method ResolveScored(i: nat, ratio: real, noTrades: bool)
      requires Balanced() && i in open
      modifies `diagnostics, `scored, `scoredFrom, `open
      ensures Balanced() && open == old(open) - {i}
      ensures diagnostics == old(diagnostics)[i :=
        Record(old(diagnostics)[i].symbol, Evaluated, if noTrades then Some(NoTrades) else None, Some(ratio))]
    {
      diagnostics := diagnostics[i :=
        Record(diagnostics[i].symbol, Evaluated, if noTrades then Some(NoTrades) else None, Some(ratio))];
      scored := scored + [Candidate(diagnostics[i].symbol, ratio)];
      scoredFrom := scoredFrom + [i];
      open := open - {i};
    }

    /** A record is marked evaluated, and then the exception strikes. */
    method MarkUnscored(i: nat)
      requires Balanced() && i in open
      modifies `diagnostics, `stuck, `open
      ensures Balanced() && open == old(open) - {i} && stuck == old(stuck) + {i}
      ensures diagnostics == old(diagnostics)[i := Record(old(diagnostics)[i].symbol, Evaluated, None, None)]
    {
      diagnostics := diagnostics[i := Record(diagnostics[i].symbol, Evaluated, None, None)];
      stuck := stuck + {i};
      open := open - {i};
    }

    /** One more look at the board of an open record. The verdict is noted once there is a turnover. */
    method Attempt(i: nat, fetch: BoardFetch, average: AverageFetch) returns (r: Attempted)
      requires Balanced() && i in open
      modifies `diagnostics, `scored, `skips, `scoredFrom, `skippedFrom, `open, `stuck
      ensures Balanced() && Symbols(diagnostics) == Symbols(old(diagnostics))
      ensures r == AttemptOf(fetch, average)
      ensures match r
        case Applied(verdict) =>
          && open == old(open) - {i} && stuck == old(stuck) + (if verdict.Breaks? then {i} else {})
          && i < |diagnostics| && IsResolved(diagnostics[i], verdict)
          && forall k :: 0 <= k < |diagnostics| && k != i ==> diagnostics[k] == old(diagnostics)[k]
        case _ => open == old(open) && stuck == old(stuck) && diagnostics == old(diagnostics)
    {
      if !fetch.Fetched? {
        return Missing;
      }
      var turnover := TurnoverOf(fetch.board);
      if turnover.Raised? {
        return Interrupted;
      }
      if turnover.value.None? {
        return Missing;
      }
      var verdict := Assess(turnover.value.value, fetch.board.volume, average);
      match verdict {
        case Breaks => MarkUnscored(i);
        case NoAverage => ResolveSkipped(i, AverageMissing);
        case NonPositive => ResolveSkipped(i, AverageNonPositive);
        case Ratio(ratio, noTrades) => ResolveScored(i, ratio, noTrades);
      }
      r := Applied(verdict);
    }

    /** The records that have had their verdict show it, and the ones still open are untouched. */
    ghost predicate VerdictsHold(verdicts: map<nat, Verdict>)
      reads this
    {
      && (forall i :: i in verdicts ==> i < |diagnostics| && i !in open)
      && (forall i :: i in verdicts ==> IsResolved(diagnostics[i], verdicts[i]))
      && (forall i :: i in stuck <==> i in verdicts && verdicts[i].Breaks?)
      && (forall i :: i in pending <==> i in open || i in verdicts)
    }

    /** Only records set aside have changed. */
    ghost predicate RestKept(before: seq<Record>)
      reads `diagnostics, `pending
    {
      && Symbols(diagnostics) == Symbols(before)
      && forall i :: 0 <= i < |before| && i !in pending ==> diagnostics[i] == before[i]
    }

    /** One record in one round; its verdict is to be noted. */
    method AttemptOne(i: nat, round: Round, ghost verdicts: map<nat, Verdict>)
      returns (r: Attempted)
      requires Balanced() && VerdictsHold(verdicts)
      requires i in open && diagnostics[i].symbol in round.results
      modifies `diagnostics, `scored, `skips, `scoredFrom, `skippedFrom, `open, `stuck
      ensures Balanced() && RestKept(old(diagnostics)) && VerdictsHold(WithVerdict(verdicts, i, r))
      ensures r == AttemptOf(round.results[old(diagnostics)[i].symbol], round.averages(old(diagnostics)[i].symbol))
      ensures open == (if r.Applied? then old(open) - {i} else old(open))
    {
      var s := diagnostics[i].symbol;
      r := Attempt(i, round.results[s], round.averages(s));
    }

    /** The attempt at one record, and the sets that the round keeps. */
    method TakeTurn(unresolved: seq<nat>, k: nat, round: Round, handled: set<nat>, still: seq<nat>,
                    ghost before: map<nat, Verdict>)
      returns (r: Attempted, after: seq<nat>, done: set<nat>)
      requires Balanced() && VerdictsHold(before)
      requires k < |unresolved| && Waiting(open, still, unresolved, k) && handled == before.Keys
      requires diagnostics[unresolved[k]].symbol in round.results
      modifies `diagnostics, `scored, `skips, `scoredFrom, `skippedFrom, `open, `stuck
      ensures Balanced() && RestKept(old(diagnostics)) && VerdictsHold(WithVerdict(before, unresolved[k], r))
      ensures
        var s := old(diagnostics)[unresolved[k]].symbol;
        r == AttemptOf(round.results[s], round.averages(s))
      ensures after == (if r.Applied? then still else still + [unresolved[k]])
      ensures Waiting(open, after, unresolved, k + 1) && done == WithVerdict(before, unresolved[k], r).Keys
    {
      var i := unresolved[k];
      after, done := still, handled;
      WaitingTurn(open, still, unresolved, k);
      r := AttemptOne(i, round, before);
      if r.Applied? {
        done := handled + {i};
      } else {
        after := still + [i];
      }
    }

    /** One record, whose result is there, of a round that has got through so far. */
    method RoundTurn(symbols: seq<Symbol>, unresolved: seq<nat>, k: nat, round: Round, handled: set<nat>,
                     still: seq<nat>, ghost verdicts: map<nat, Verdict>, ghost before: map<nat, Verdict>)
      returns (after: seq<nat>, end: RoundEnd, done: set<nat>, ghost noted: map<nat, Verdict>)
      requires Balanced() && VerdictsHold(before) && Symbols(diagnostics) == symbols
      requires k < |unresolved| && Waiting(open, still, unresolved, k) && handled == before.Keys
      requires RoundSoFar(symbols, unresolved, k, round, verdicts, before, still, Through)
      requires symbols[unresolved[k]] in round.results
      modifies `diagnostics, `scored, `skips, `scoredFrom, `skippedFrom, `open, `stuck
      ensures Balanced() && VerdictsHold(noted) && RestKept(old(diagnostics)) && Symbols(diagnostics) == symbols
      ensures Waiting(open, after, unresolved, k + 1) && done == noted.Keys
      ensures RoundSoFar(symbols, unresolved, k + 1, round, verdicts, noted, after, end)
    {
      assert diagnostics[unresolved[k]].symbol == Symbols(diagnostics)[unresolved[k]];
      var r;
      r, after, done := TakeTurn(unresolved, k, round, handled, still, before);
      noted := WithVerdict(before, unresolved[k], r);
      end := if r.Interrupted? || r == Applied(Breaks) then RoundRaised else Through;
      AttemptTurnsRound(symbols, unresolved, k, round, verdicts, before, still, r, noted, after, end);
    }

    /** One round over the records without a verdict, in order, until a result is missing or an
        exception strikes. */
    method RunRound(symbols: seq<Symbol>, unresolved: seq<nat>, round: Round, handled: set<nat>,
                    ghost verdicts: map<nat, Verdict>)
      returns (still: seq<nat>, end: RoundEnd, done: set<nat>, ghost noted: map<nat, Verdict>)
      requires Balanced() && VerdictsHold(verdicts) && Symbols(diagnostics) == symbols
      requires Waiting(open, [], unresolved, 0) && handled == verdicts.Keys
      requires forall j :: 0 <= j < |unresolved| ==> unresolved[j] < |symbols|
      modifies `diagnostics, `scored, `skips, `scoredFrom, `skippedFrom, `open, `stuck
      ensures Balanced() && VerdictsHold(noted) && RestKept(old(diagnostics)) && Symbols(diagnostics) == symbols
      ensures Waiting(open, [], still, 0) && done == noted.Keys
      ensures RoundOf(symbols, unresolved, |unresolved|, round, verdicts) == RoundOutcome(noted, still, end)
    {
      still, done, noted, end := [], handled, verdicts, Through;
      var k := 0;
      while k < |unresolved| && end.Through?
        invariant k <= |unresolved|
        invariant Balanced() && VerdictsHold(noted) && RestKept(old(diagnostics)) && Symbols(diagnostics) == symbols
        invariant Waiting(open, still, unresolved, k) && done == noted.Keys
        invariant RoundSoFar(symbols, unresolved, k, round, verdicts, noted, still, end)
        decreases |unresolved| - k, if end.Through? then 1 else 0
      {
        if symbols[unresolved[k]] !in round.results {
          MissingResultEndsRound(symbols, unresolved, k, round, verdicts, noted, still);
          end := RoundStopped;
        } else {
          still, end, done, noted := RoundTurn(symbols, unresolved, k, round, done, still, verdicts, noted);
          k := k + 1;
        }
      }
      RestIsWaiting(open, still, unresolved, k);
      assert end.Through? ==> still + unresolved[k..] == still;
      still := still + unresolved[k..];
    }

    /** All rounds, until one does not start or does not get through. */
    method RunRounds(rounds: seq<Round>)
      returns (handled: set<nat>, ghost verdicts: map<nat, Verdict>)
      requires Balanced() && PendingIsOpen() && stuck == {}
      modifies `diagnostics, `scored, `skips, `scoredFrom, `skippedFrom, `open, `stuck
      ensures Balanced() && VerdictsHold(verdicts) && RestKept(old(diagnostics)) && handled == verdicts.Keys
      ensures Indices(Symbols(old(diagnostics)), pending)
      ensures verdicts == VerdictsOf(Symbols(old(diagnostics)), pending, rounds)
    {
      var symbols: seq<Symbol>, unresolved: seq<nat>, n: nat := Symbols(diagnostics), pending, 0;
      assert forall k :: 0 <= k < |pending| ==> pending[k] in open;
      handled, verdicts := {}, map[];
      ghost var all := VerdictsOf(symbols, pending, rounds);
      var goOn := true;
      while goOn && n < |rounds| && unresolved != []
        invariant n <= |rounds|
        invariant Balanced() && VerdictsHold(verdicts) && RestKept(old(diagnostics)) && Symbols(diagnostics) == symbols
        invariant Waiting(open, [], unresolved, 0) && handled == verdicts.Keys
        invariant LeadsTo(all, symbols, unresolved, rounds, n, verdicts, goOn)
        decreases |rounds| - n, if goOn then 1 else 0
      {
        goOn, unresolved, handled, verdicts :=
          NextRound(all, symbols, unresolved, rounds, n, handled, verdicts);
        n := if goOn then n + 1 else n;
      }
      NoRoundLeft(all, symbols, unresolved, rounds, n, verdicts, goOn);
    }

    /** The next round, if it starts; whether the rounds go on after it. */
    method NextRound(ghost all: map<nat, Verdict>, symbols: seq<Symbol>, unresolved: seq<nat>, rounds: seq<Round>,
                     n: nat, handled: set<nat>, ghost verdicts: map<nat, Verdict>)
      returns (goOn: bool, still: seq<nat>, done: set<nat>, ghost noted: map<nat, Verdict>)
      requires Balanced() && VerdictsHold(verdicts) && Symbols(diagnostics) == symbols
      requires n < |rounds| && unresolved != [] && Waiting(open, [], unresolved, 0) && handled == verdicts.Keys
      requires LeadsTo(all, symbols, unresolved, rounds, n, verdicts, true)
      modifies `diagnostics, `scored, `skips, `scoredFrom, `skippedFrom, `open, `stuck
      ensures Balanced() && VerdictsHold(noted) && RestKept(old(diagnostics)) && Symbols(diagnostics) == symbols
      ensures Waiting(open, [], still, 0) && done == noted.Keys
      ensures LeadsTo(all, symbols, still, rounds, if goOn then n + 1 else n, noted, goOn)
    {
      goOn, still, done, noted := false, unresolved, handled, verdicts;
      if Starts(rounds[n]) {
        RoundLeadsOn(all, symbols, unresolved, rounds, n, verdicts);
        var end: RoundEnd;
        still, end, done, noted := RunRound(symbols, unresolved, rounds[n], handled, verdicts);
        goOn := end.Through?;
      } else {
        NoRoundLeft(all, symbols, unresolved, rounds, n, verdicts, true);
      }
    }

    /** All rounds, then the records without a verdict are given up as missing. The verdicts are those that
        the boards of the rounds come to. */
    method RetryBoards(rounds: seq<Round>) returns (ghost verdicts: map<nat, Verdict>)
      requires Balanced() && PendingIsOpen() && stuck == {}
      modifies `diagnostics, `scored, `skips, `scoredFrom, `skippedFrom, `open, `stuck
      ensures Balanced() && open == {} && RestKept(old(diagnostics))
      ensures Indices(Symbols(old(diagnostics)), pending)
      ensures verdicts == VerdictsOf(Symbols(old(diagnostics)), pending, rounds)
      ensures VerdictsShown(verdicts) && RestMissing(verdicts)
      ensures |IndicesWith(diagnostics, Evaluated)| == |scored| <==>
              AllReadable(Symbols(old(diagnostics)), pending, rounds)
    {
      ghost var symbols := Symbols(diagnostics);
      var handled;
      handled, verdicts := RunRounds(rounds);
      GiveUp(handled, verdicts);
      EvaluatedAreScoredIff(diagnostics, scored, skips, scoredFrom, skippedFrom, stuck, symbols, pending, rounds);
    }

    ghost predicate VerdictsShown(verdicts: map<nat, Verdict>)
      reads this
    {
      && (forall i :: i in verdicts ==> i in pending && i < |diagnostics| && IsResolved(diagnostics[i], verdicts[i]))
      && (forall i :: i in stuck <==> i in verdicts && verdicts[i].Breaks?)
    }

    /** Records without a verdict are missing their turnover. */
    ghost predicate RestMissing(verdicts: map<nat, Verdict>)
      reads this
    {
      forall i :: i in pending && i !in verdicts ==>
        i < |diagnostics| && diagnostics[i] == SkippedRecord(diagnostics[i].symbol, TurnoverMissing)
    }

    method GiveUpOne(i: nat, ghost verdicts: map<nat, Verdict>)
      requires Balanced() && VerdictsShown(verdicts) && RestMissing(verdicts) && i in open && i in pending
        && i !in verdicts
      modifies `diagnostics, `skips, `skippedFrom, `open
      ensures Balanced() && VerdictsShown(verdicts) && RestMissing(verdicts)
      ensures open == old(open) - {i} && RestKept(old(diagnostics))
    {
      ResolveSkipped(i, TurnoverMissing);
    }

    lemma NextPending(k: nat)
      requires k < |pending| && Distinct(pending)
      ensures forall i :: i in pending[k..] <==> i == pending[k] || i in pending[k + 1..]
      ensures pending[k] !in pending[k + 1..]
    {
      assert pending[k..] == [pending[k]] + pending[k + 1..];
    }

    method GiveUp(handled: set<nat>, ghost verdicts: map<nat, Verdict>)
      requires Balanced() && Distinct(pending) && VerdictsHold(verdicts) && handled == verdicts.Keys
      modifies `diagnostics, `skips, `skippedFrom, `open
      ensures Balanced() && open == {} && RestKept(old(diagnostics))
      ensures VerdictsShown(verdicts) && RestMissing(verdicts)
    {
      for k := 0 to |pending|
        invariant Balanced() && RestKept(old(diagnostics))
        invariant VerdictsShown(verdicts) && RestMissing(verdicts)
        invariant forall i :: i in open <==> i in pending[k..] && i !in verdicts
      {
        NextPending(k);
        if pending[k] !in handled {
          GiveUpOne(pending[k], verdicts);
        }
      }
    }

    // -------------------------------------------------------------- the run

    method AppendRest(symbols: seq<Symbol>, next: nat)
      requires Balanced() && next <= |symbols| && Symbols(diagnostics) == symbols[..next]
      modifies `diagnostics
      ensures Balanced() && Symbols(diagnostics) == symbols && diagnostics[..next] == old(diagnostics)
      ensures forall i :: next <= i < |diagnostics| ==> diagnostics[i].status.NotEvaluated?
    {
      for i := next to |symbols|
        invariant Balanced() && Symbols(diagnostics) == symbols[..i] && diagnostics[..next] == old(diagnostics)
        invariant forall k :: next <= k < |diagnostics| ==> diagnostics[k].status.NotEvaluated?
      {
        AppendUnfinished(symbols[i], NotEvaluated);
      }
      assert symbols[..|symbols|] == symbols;
    }

    /** A whole run: one record for each symbol, in order. It raises, ends early or completes as the visits
        decide; if it completes, no record is left open, every record set aside has the verdict of the board
        that settles it or counts as missing, and the evaluated records are the scored candidates exactly when
        every board that a round comes to can be read. The result is to be saved unless time ran out. */
    method Execute(symbols: seq<Symbol>, visits: seq<Visit>, past: bool, retryActive: bool, rounds: seq<Round>,
                   lateAtEnd: bool)
      returns (r: Result<bool>, complete: bool, ghost verdicts: map<nat, Verdict>)
      requires |visits| == |symbols|
      requires Balanced() && diagnostics == [] && pending == [] && open == {} && stuck == {}
      modifies this
      ensures r.Raised? <==> ScanOf(symbols, visits, past, 0).Broken?
      ensures r.Ok? ==> (complete <==> ScanOf(symbols, visits, past, 0).Finished?)
      ensures r.Ok? ==> Balanced() && Symbols(diagnostics) == symbols
      ensures r.Ok? ==> (r.value <==> complete && !lateAtEnd)
      ensures r.Ok? && complete ==> pending == PendingOf(visits, past, retryActive, |visits|)
      ensures r.Ok? && complete ==> forall k :: 0 <= k < |symbols| && k !in pending ==>
        Some(diagnostics[k]) == RecordOf(symbols[k], visits[k], past)
      ensures r.Ok? && !complete ==> forall k :: 0 <= k < |symbols| ==>
        if k < ScanOf(symbols, visits, past, 0).next then Some(diagnostics[k]) == RecordOf(symbols[k], visits[k], past)
        else diagnostics[k].status.NotEvaluated?
      ensures r.Ok? && complete ==>
        Indices(symbols, pending) && verdicts == VerdictsOf(symbols, pending, rounds)
      ensures r.Ok? && complete ==> open == {} && VerdictsShown(verdicts) && RestMissing(verdicts)
      ensures r.Ok? && complete ==>
        (|IndicesWith(diagnostics, Evaluated)| == |scored| <==> AllReadable(symbols, pending, rounds))
      ensures r.Ok? && !complete ==> stuck == {}
      ensures r.Ok? && complete ==>
        && RecordsSay(symbols, visits, past, pending, rounds, diagnostics)
        && CandidatesSay(symbols, visits, past, pending, rounds, scored)
    {
      verdicts := map[];
      var end := Scan(symbols, visits, past, retryActive);
      if end.Broken? {
        return Raised, false, verdicts;
      }
      complete := end.Finished?;
      if complete {
        verdicts := RetryBoards(rounds);
        CompletedRunSays(symbols, visits, past, pending, rounds, diagnostics);
        CompletedRunScores(symbols, visits, past, pending, rounds, diagnostics, scored, scoredFrom);
      } else {
        AppendRest(symbols, end.next);
      }
      r := Ok(complete && !lateAtEnd);
    }
  }

  // ---------------------------------------------------------------- what the balance means

  function IndicesWith(records: seq<Record>, status: Status): set<nat> {
    set i | 0 <= i < |records| && records[i].status == status
  }

  function Members(from: seq<nat>): set<nat> {
    set i | i in from
  }

  lemma {:induction false} DistinctCount(from: seq<nat>)
    requires Distinct(from)
    ensures |Members(from)| == |from|
  {
    if from != [] {
      var n := |from| - 1;
      DistinctCount(from[..n]);
      assert Members(from) == Members(from[..n]) + {from[n]};
    }
  }

  /** In a balanced run, the evaluated records are as many as the candidates and the stuck records, and the
      skipped records as many as the skips and the open records. */
  lemma RecordsAddUp(records: seq<Record>, scored: seq<Candidate>, skips: seq<Skip>, scoredFrom: seq<nat>,
                     skippedFrom: seq<nat>, open: set<nat>, stuck: set<nat>)
    requires ScoredFrom(records, scored, scoredFrom) && SkippedFrom(records, skips, skippedFrom)
    requires Covered(records, scoredFrom, skippedFrom, open, stuck)
    requires (forall i :: i in open ==> i < |records|) && forall i :: i in stuck ==> i < |records|
    ensures |IndicesWith(records, Evaluated)| == |scored| + |stuck|
    ensures |IndicesWith(records, Skipped)| == |skips| + |open|
  {
    SplitIndices(records, Evaluated, scoredFrom, stuck);
    SplitIndices(records, Skipped, skippedFrom, open);
  }

  /** A listing without repetition and a rest split the indices of a status. */
  lemma SplitIndices(records: seq<Record>, status: Status, from: seq<nat>, rest: set<nat>)
    requires Distinct(from)
    requires forall k :: 0 <= k < |from| ==> from[k] < |records| && records[from[k]].status == status
    requires forall i :: i in rest ==> i < |records| && records[i].status == status
    requires forall i :: 0 <= i < |records| && records[i].status == status ==> (i in from <==> i !in rest)
    ensures |IndicesWith(records, status)| == |from| + |rest|
  {
    DistinctCount(from);
    assert IndicesWith(records, status) == Members(from) + rest;
    assert Members(from) * rest == {};
  }

  /** The evaluated records are exactly the scored candidates if and only if every board that a round of fetching
      again comes to has a turnover and an average that can be read as numbers. */
  lemma EvaluatedAreScoredIff(records: seq<Record>, scored: seq<Candidate>, skips: seq<Skip>, scoredFrom: seq<nat>,
                              skippedFrom: seq<nat>, stuck: set<nat>, symbols: seq<Symbol>, pending: seq<nat>,
                              rounds: seq<Round>)
    requires ScoredFrom(records, scored, scoredFrom) && SkippedFrom(records, skips, skippedFrom)
    requires Covered(records, scoredFrom, skippedFrom, {}, stuck)
    requires Indices(symbols, pending) && Distinct(pending) && forall i :: i in stuck ==> i < |records|
    requires
      var verdicts := VerdictsOf(symbols, pending, rounds);
      forall i :: i in stuck <==> i in verdicts && verdicts[i].Breaks?
    ensures |IndicesWith(records, Evaluated)| == |scored| <==> AllReadable(symbols, pending, rounds)
  {
    RecordsAddUp(records, scored, skips, scoredFrom, skippedFrom, {}, stuck);
    NothingBreaksIff(symbols, pending, rounds);
    if stuck == {} {
      assert |stuck| == 0;
    } else {
      var i :| i in stuck;
      assert |stuck| > 0;
    }
  }

  /** A board without a turnover, which is set aside, and one whose turnover cannot be read. */
  const NO_TURNOVER: BoardFetch := Fetched(Board(None, None, None))
  const UNREADABLE: BoardFetch := Fetched(Board(Some(Unreadable), None, None))

  /** A whole run that leaves its record evaluated but unscored: the first board has no turnover, and the one fetched
      again has a turnover that cannot be read. The run completes, and its result is to be saved. */
  method UnreadableTurnoverIsNotScored(s: Symbol, averages: Symbol -> AverageFetch)
    returns (run: FilteringRun, r: Result<bool>, complete: bool)
    ensures fresh(run) && run.Balanced() && r == Ok(true) && complete
    ensures |run.diagnostics| == 1 && run.diagnostics[0].status.Evaluated? && run.scored == [] && run.skips == []
  {
    var visits := [Visit(false, NO_TURNOVER, false, AverageRaises, false, AverageRaises)];
    var rounds := [Round(false, false, map[s := UNREADABLE], averages)];
    run := new FilteringRun();
    ghost var verdicts;
    SetAsideAlone(s, visits);
    r, complete, verdicts := run.Execute([s], visits, false, true, rounds, false);
    assert |Symbols(run.diagnostics)| == 1 && run.pending == [0];
    FirstBoardCannotBeRead(s, UNREADABLE, rounds);
    UnscoredAlone(run.diagnostics, run.scored, run.skips, run.scoredFrom, run.skippedFrom, run.stuck);
  }

  lemma SetAsideAlone(s: Symbol, visits: seq<Visit>)
    requires |visits| == 1 && !visits[0].lateBefore && visits[0].fetch == NO_TURNOVER
    ensures ScanOf([s], visits, false, 0) == Finished && PendingOf(visits, false, true, 1) == [0]
  {
    assert ScanOf([s], visits, false, 1) == Finished;
    assert PendingOf(visits, false, true, 0) == [];
  }

  lemma FirstBoardCannotBeRead(s: Symbol, board: BoardFetch, rounds: seq<Round>)
    requires |rounds| == 1 && Starts(rounds[0]) && s in rounds[0].results && rounds[0].results[s] == board
    requires CannotBeRead(board, rounds[0].averages(s))
    ensures !AllReadable([s], [0], rounds)
  {
    assert Reached([s], [0], rounds, 0, 0);
  }

  /** With one record, a difference leaves it evaluated and nothing else. */
  lemma UnscoredAlone(records: seq<Record>, scored: seq<Candidate>, skips: seq<Skip>, scoredFrom: seq<nat>,
                      skippedFrom: seq<nat>, stuck: set<nat>)
    requires ScoredFrom(records, scored, scoredFrom) && SkippedFrom(records, skips, skippedFrom)
    requires Covered(records, scoredFrom, skippedFrom, {}, stuck) && forall i :: i in stuck ==> i < |records|
    requires |records| == 1 && |IndicesWith(records, Evaluated)| != |scored|
    ensures records[0].status.Evaluated? && scored == [] && skips == []
  {
    RecordsAddUp(records, scored, skips, scoredFrom, skippedFrom, {}, stuck);
    assert |stuck| != 0;
    var i :| i in stuck;
    assert IndicesWith(records, Evaluated) == {0} && IndicesWith(records, Skipped) == {};
  }

  /** A record as its verdict leaves it. */
  ghost predicate IsResolved(r: Record, verdict: Verdict) {
    match verdict
    case Breaks => r == Record(r.symbol, Evaluated, None, None)
    case NoAverage => r == Record(r.symbol, Skipped, Some(AverageMissing), None)
    case NonPositive => r == Record(r.symbol, Skipped, Some(AverageNonPositive), None)
    case Ratio(ratio, noTrades) =>
      r == Record(r.symbol, Evaluated, if noTrades then Some(NoTrades) else None, Some(ratio))
  }

  // ---------------------------------------------------------------- records in terms of their data

  /** A record of today, from the fields of its board. */
  ghost predicate LiveSays(v: Visit, r: Record) {
    if !v.fetch.Fetched? then r == Record(r.symbol, Skipped, Some(BoardFetchFailed), None)
    else if ShowsNone(v.fetch.board) then
      r == Record(r.symbol, Skipped,
                  Some(if v.fetch.board.volume.Some? then CurrentPriceMissing else TurnoverMissing), None)
    else if v.lateBetween then ShowsNumber(v.fetch.board) && r == Record(r.symbol, Partial, Some(TimeLimit), None)
    else exists verdict :: VerdictSays(v.fetch.board, v.average, verdict) && verdict != Breaks && IsResolved(r, verdict)
  }

  /** A record of a past date, from the turnover and the average of the daily data. */
  ghost predicate PastSays(v: Visit, r: Record) {
    if AverageLacks(v.pastTurnover) || AverageLacks(v.average)
    then r == Record(r.symbol, Skipped, Some(AverageMissing), None)
    else
      && v.pastTurnover.average.value.Number?
      && if AverageNotPositive(v.average) then r == Record(r.symbol, Skipped, Some(AverageNonPositive), None)
         else r == Record(r.symbol, Evaluated, None, r.ratio) && r.ratio.Some?
                && IsRatio(v.pastTurnover.average.value, v.average, r.ratio.value)
  }

  ghost predicate VisitSays(v: Visit, past: bool, r: Record) {
    if past then PastSays(v, r) else LiveSays(v, r)
  }

  lemma LiveRecordIff(s: Symbol, v: Visit, r: Record)
    ensures LiveRecord(s, v) == Some(r) <==> r.symbol == s && LiveSays(v, r)
  {
    if v.fetch.Fetched? {
      var b := v.fetch.board;
      AttemptIff(v.fetch, v.average, Breaks);
      if TurnoverOf(b).Ok? && TurnoverOf(b).value.Some? {
        var turnover := TurnoverOf(b).value.value;
        AssessSays(b, v.average, turnover);
        if turnover.Number? {
          assert ShowsTurnover(b, Number(turnover.value));
        }
        var given := Assess(turnover, b.volume, v.average);
        AttemptIff(v.fetch, v.average, given);
        forall verdict | VerdictSays(b, v.average, verdict) ensures verdict == given {
          AttemptIff(v.fetch, v.average, verdict);
        }
      }
    }
  }

  lemma PastRecordIff(s: Symbol, v: Visit, r: Record)
    ensures PastRecord(s, v) == Some(r) <==> r.symbol == s && PastSays(v, r)
  {
    if !AverageLacks(v.pastTurnover) && !AverageLacks(v.average) {
      var turnover := v.pastTurnover.average.value;
      var given := Assess(turnover, None, v.average);
      if given.Ratio? {
        var mean := v.average.average.value.value;
        assert turnover.value / mean * mean == turnover.value;
        if r.ratio.Some? && IsRatio(turnover, v.average, r.ratio.value) {
          RatioIsUnique(turnover, v.average, given.ratio, r.ratio.value);
        }
      }
    }
  }

  /** The record of a visit is the one that its data allow. */
  lemma RecordIff(s: Symbol, v: Visit, past: bool, r: Record)
    ensures RecordOf(s, v, past) == Some(r) <==> r.symbol == s && VisitSays(v, past, r)
  {
    LiveRecordIff(s, v, r);
    PastRecordIff(s, v, r);
  }

  /** A visit raises exactly on a turnover or an average that is needed and no number, or on factors of a turnover that
      are none; it stops the scan exactly when time has run out before the average of a turnover is fetched, or after
      its ratio is scored; and a symbol is set aside exactly when its board shows neither turnover nor volume. */
  lemma VisitEndIff(s: Symbol, v: Visit, past: bool, retryActive: bool)
    ensures past ==>
      (EndOf(s, v, past).Raise? <==>
        && !AverageLacks(v.pastTurnover) && !AverageLacks(v.average)
        && (v.pastTurnover == AverageIs(Some(Unreadable)) || v.average == AverageIs(Some(Unreadable))))
    ensures !past ==>
      (EndOf(s, v, past).Raise? <==>
        && v.fetch.Fetched?
        && (|| CannotBeMultiplied(v.fetch.board) || ShowsTurnover(v.fetch.board, Unreadable)
            || (ShowsNumber(v.fetch.board) && !v.lateBetween && v.average == AverageIs(Some(Unreadable)))))
    ensures EndOf(s, v, past).Stop? <==>
      && !past && v.fetch.Fetched? && ShowsNumber(v.fetch.board)
      && (v.lateBetween || (v.lateAfter && AverageIsPositive(v.average)))
    ensures SetsAside(v, past, retryActive) <==>
      !past && retryActive && v.fetch.Fetched? && v.fetch.board.turnover.None? && v.fetch.board.volume.None?
  {
    if v.fetch.Fetched? && TurnoverOf(v.fetch.board).Ok? && TurnoverOf(v.fetch.board).value.Some? {
      var turnover := TurnoverOf(v.fetch.board).value.value;
      if turnover.Number? {
        assert ShowsTurnover(v.fetch.board, Number(turnover.value));
      }
    }
  }

  ghost predicate AverageIsPositive(average: AverageFetch) {
    && average.AverageIs? && average.average.Some? && average.average.value.Number?
    && average.average.value.value > 0.0
  }

  /** The scan ends at the first visit that is too late, stops or raises, and finishes exactly when there is none. */
  lemma {:induction false} ScanIff(symbols: seq<Symbol>, visits: seq<Visit>, past: bool, i: nat)
    requires i <= |symbols| == |visits|
    ensures
      var passes := (k: nat) requires k < |symbols| =>
        !visits[k].lateBefore && EndOf(symbols[k], visits[k], past).GoOn?;
      match ScanOf(symbols, visits, past, i)
      case Finished => forall k: nat :: i <= k < |symbols| ==> passes(k)
      case CutShort(next) =>
        && i <= next <= |symbols|
        && ((next < |symbols| && visits[next].lateBefore && forall k: nat :: i <= k < next ==> passes(k))
            || (i < next && !visits[next - 1].lateBefore && EndOf(symbols[next - 1], visits[next - 1], past).Stop?
                && forall k: nat :: i <= k < next - 1 ==> passes(k)))
      case Broken =>
        exists n: nat :: i <= n < |symbols| && !visits[n].lateBefore
          && EndOf(symbols[n], visits[n], past).Raise? && forall k: nat :: i <= k < n ==> passes(k)
    decreases |symbols| - i
  {
    if i < |symbols| && !visits[i].lateBefore && EndOf(symbols[i], visits[i], past).GoOn? {
      ScanIff(symbols, visits, past, i + 1);
    }
  }

  /** The verdict of a board that a round brings. */
  ghost predicate SettledSays(s: Symbol, round: Round, r: Record) {
    && s in round.results && round.results[s].Fetched?
    && exists verdict :: VerdictSays(round.results[s].board, round.averages(s), verdict) && IsResolved(r, verdict)
  }

  /** What a completed run says of the `p`-th record set aside: some round settles it, and it shows the verdict in the
      fields of that board, or none does, and its turnover is missing. */
  ghost predicate PendingSays(symbols: seq<Symbol>, pending: seq<nat>, rounds: seq<Round>, p: nat, r: Record)
    requires Indices(symbols, pending) && p < |pending|
  {
    if exists n: nat :: Settles(symbols, pending, rounds, p, n)
    then exists n: nat :: Settles(symbols, pending, rounds, p, n) && SettledSays(r.symbol, rounds[n], r)
    else r == Record(r.symbol, Skipped, Some(TurnoverMissing), None)
  }

  /** The records of a completed run say what their visits or the rounds have shown. */
  ghost predicate RecordsSay(symbols: seq<Symbol>, visits: seq<Visit>, past: bool, pending: seq<nat>,
                             rounds: seq<Round>, records: seq<Record>) {
    && |visits| == |symbols| == |records| && Indices(symbols, pending)
    && (forall i :: 0 <= i < |symbols| ==> records[i].symbol == symbols[i])
    && (forall i :: 0 <= i < |symbols| && i !in pending ==> VisitSays(visits[i], past, records[i]))
    && (forall p :: 0 <= p < |pending| ==> PendingSays(symbols, pending, rounds, p, records[pending[p]]))
  }

  lemma PendingRecordSays(symbols: seq<Symbol>, pending: seq<nat>, rounds: seq<Round>, p: nat, r: Record)
    requires Indices(symbols, pending) && Distinct(pending) && p < |pending| && r.symbol == symbols[pending[p]]
    requires
      var verdicts := VerdictsOf(symbols, pending, rounds);
      if pending[p] in verdicts then IsResolved(r, verdicts[pending[p]])
      else r == SkippedRecord(r.symbol, TurnoverMissing)
    ensures PendingSays(symbols, pending, rounds, p, r)
  {
    VerdictIff(symbols, pending, rounds, p);
    var verdicts := VerdictsOf(symbols, pending, rounds);
    if pending[p] in verdicts {
      var n: nat :| Settles(symbols, pending, rounds, p, n);
      AttemptIff(rounds[n].results[r.symbol], rounds[n].averages(r.symbol), verdicts[pending[p]]);
      assert SettledSays(r.symbol, rounds[n], r);
    }
  }

  lemma CompletedRunSays(symbols: seq<Symbol>, visits: seq<Visit>, past: bool, pending: seq<nat>, rounds: seq<Round>,
                         records: seq<Record>)
    requires |visits| == |symbols| && Symbols(records) == symbols && Indices(symbols, pending) && Distinct(pending)
    requires forall k :: 0 <= k < |symbols| && k !in pending ==>
      Some(records[k]) == RecordOf(symbols[k], visits[k], past)
    requires
      var verdicts := VerdictsOf(symbols, pending, rounds);
      forall p :: 0 <= p < |pending| ==>
        if pending[p] in verdicts then IsResolved(records[pending[p]], verdicts[pending[p]])
        else records[pending[p]] == SkippedRecord(records[pending[p]].symbol, TurnoverMissing)
    ensures RecordsSay(symbols, visits, past, pending, rounds, records)
  {
    assert |records| == |Symbols(records)|;
    forall i | 0 <= i < |symbols| ensures records[i].symbol == symbols[i] {
      assert Symbols(records)[i] == symbols[i];
    }
    forall i | 0 <= i < |symbols| && i !in pending ensures VisitSays(visits[i], past, records[i]) {
      RecordIff(symbols[i], visits[i], past, records[i]);
    }
    forall p | 0 <= p < |pending| ensures PendingSays(symbols, pending, rounds, p, records[pending[p]]) {
      PendingRecordSays(symbols, pending, rounds, p, records[pending[p]]);
    }
  }

  // ---------------------------------------------------------------- candidates in terms of their data

  /** A turnover of the board and the ratio that it gives. */
  ghost predicate BoardScores(b: Board, average: AverageFetch, ratio: real) {
    exists turnover: real :: ShowsTurnover(b, Number(turnover)) && IsRatio(Number(turnover), average, ratio)
  }

  ghost predicate VisitScores(v: Visit, past: bool, ratio: real) {
    if past then v.pastTurnover.AverageIs? && v.pastTurnover.average.Some?
                   && IsRatio(v.pastTurnover.average.value, v.average, ratio)
    else v.fetch.Fetched? && BoardScores(v.fetch.board, v.average, ratio)
  }

  ghost predicate RoundScores(round: Round, s: Symbol, ratio: real) {
    s in round.results && round.results[s].Fetched? && BoardScores(round.results[s].board, round.averages(s), ratio)
  }

  /** A ratio that, times the positive average, is the turnover shown for record `i`: by its visit or, when it was set
      aside, by the board that settles it. */
  ghost predicate RatioSays(symbols: seq<Symbol>, visits: seq<Visit>, past: bool, pending: seq<nat>,
                            rounds: seq<Round>, i: nat, ratio: real)
    requires |visits| == |symbols| && Indices(symbols, pending) && i < |symbols|
  {
    if i !in pending then VisitScores(visits[i], past, ratio)
    else
      exists p: nat, n: nat :: p < |pending| && pending[p] == i && Settles(symbols, pending, rounds, p, n)
        && RoundScores(rounds[n], symbols[i], ratio)
  }

  /** Every candidate has such a ratio, from the record of its symbol. */
  ghost predicate CandidatesSay(symbols: seq<Symbol>, visits: seq<Visit>, past: bool, pending: seq<nat>,
                                rounds: seq<Round>, scored: seq<Candidate>)
    requires |visits| == |symbols| && Indices(symbols, pending)
  {
    forall k :: 0 <= k < |scored| ==> CandidateSays(symbols, visits, past, pending, rounds, scored[k])
  }

  ghost predicate CandidateSays(symbols: seq<Symbol>, visits: seq<Visit>, past: bool, pending: seq<nat>,
                                rounds: seq<Round>, c: Candidate)
    requires |visits| == |symbols| && Indices(symbols, pending)
  {
    exists i: nat :: i < |symbols| && symbols[i] == c.symbol
      && RatioSays(symbols, visits, past, pending, rounds, i, c.ratio)
  }

  lemma ScoredRecordSays(symbols: seq<Symbol>, visits: seq<Visit>, past: bool, pending: seq<nat>, rounds: seq<Round>,
                         records: seq<Record>, i: nat)
    requires RecordsSay(symbols, visits, past, pending, rounds, records) && i < |symbols|
    requires records[i].status.Evaluated? && records[i].ratio.Some?
    ensures RatioSays(symbols, visits, past, pending, rounds, i, records[i].ratio.value)
  {
    if i in pending {
      var p: nat :| p < |pending| && pending[p] == i;
      assert PendingSays(symbols, pending, rounds, p, records[pending[p]]);
      var n: nat :| Settles(symbols, pending, rounds, p, n) && SettledSays(records[i].symbol, rounds[n], records[i]);
      assert RoundScores(rounds[n], symbols[i], records[i].ratio.value);
    }
  }

  lemma CompletedRunScores(symbols: seq<Symbol>, visits: seq<Visit>, past: bool, pending: seq<nat>, rounds: seq<Round>,
                           records: seq<Record>, scored: seq<Candidate>, from: seq<nat>)
    requires RecordsSay(symbols, visits, past, pending, rounds, records) && ScoredFrom(records, scored, from)
    ensures CandidatesSay(symbols, visits, past, pending, rounds, scored)
  {
    forall k | 0 <= k < |scored| ensures CandidateSays(symbols, visits, past, pending, rounds, scored[k]) {
      ScoredRecordSays(symbols, visits, past, pending, rounds, records, from[k]);
      assert symbols[from[k]] == scored[k].symbol;
    }
  }

  /** A visit raises exactly when it has no record, and else adds the record. */
  ghost predicate Adds(before: seq<Record>, after: seq<Record>, r: Option<Record>, end: VisitEnd) {
    && (end.Raise? <==> r.None?)
    && (r.Some? ==> after == before + [r.value])
  }

  /** The records of the first symbols, as their visits give them. */
  ghost predicate Recorded(records: seq<Record>, symbols: seq<Symbol>, visits: seq<Visit>, past: bool) {
    && |records| <= |symbols| == |visits|
    && forall k :: 0 <= k < |records| ==> RecordOf(symbols[k], visits[k], past) == Some(records[k])
  }

  /** The records and the pending ones after the first `i` visits, none of which ended the scan. */
  ghost predicate Scanned(records: seq<Record>, pending: seq<nat>, symbols: seq<Symbol>, visits: seq<Visit>, past: bool,
                          retryActive: bool, i: nat)
    requires i <= |symbols| == |visits|
  {
    && Symbols(records) == symbols[..i] && Recorded(records, symbols, visits, past)
    && pending == PendingOf(visits, past, retryActive, i)
    && ScanOf(symbols, visits, past, i) == ScanOf(symbols, visits, past, 0)
  }

  /** How a scan ends, and the records it leaves. */
  ghost predicate ScanShows(end: ScanEnd, records: seq<Record>, pending: seq<nat>, symbols: seq<Symbol>,
                            visits: seq<Visit>, past: bool, retryActive: bool)
    requires |symbols| == |visits|
  {
    && end == ScanOf(symbols, visits, past, 0)
    && (end.Finished? ==> Symbols(records) == symbols && pending == PendingOf(visits, past, retryActive, |visits|))
    && (end.CutShort? ==> end.next <= |symbols| && Symbols(records) == symbols[..end.next])
    && (!end.Broken? ==> Recorded(records, symbols, visits, past))
  }

  lemma ScanTurn(before: seq<Record>, after: seq<Record>, aside: seq<nat>, pending: seq<nat>, symbols: seq<Symbol>,
                 visits: seq<Visit>, past: bool, retryActive: bool, i: nat, end: VisitEnd)
    requires i < |symbols| == |visits| && Scanned(before, aside, symbols, visits, past, retryActive, i)
    requires !visits[i].lateBefore && end == EndOf(symbols[i], visits[i], past)
    requires Adds(before, after, RecordOf(symbols[i], visits[i], past), end)
    requires pending == aside + (if SetsAside(visits[i], past, retryActive) then [|before|] else [])
    ensures match end
      case Raise => ScanShows(Broken, after, pending, symbols, visits, past, retryActive)
      case Stop => ScanShows(CutShort(i + 1), after, pending, symbols, visits, past, retryActive)
      case GoOn => Scanned(after, pending, symbols, visits, past, retryActive, i + 1)
  {
    assert |before| == |Symbols(before)| == i;
    if !end.Raise? {
      RecordedGrows(before, after, symbols, visits, past, i);
    }
  }

  /** One more visit, one more record. */
  lemma RecordedGrows(before: seq<Record>, after: seq<Record>, symbols: seq<Symbol>, visits: seq<Visit>, past: bool,
                      i: nat)
    requires i < |symbols| == |visits| && Symbols(before) == symbols[..i] && Recorded(before, symbols, visits, past)
    requires RecordOf(symbols[i], visits[i], past).Some?
      && after == before + [RecordOf(symbols[i], visits[i], past).value]
    ensures Symbols(after) == symbols[..i + 1] && Recorded(after, symbols, visits, past)
  {
    assert |before| == |Symbols(before)| == i;
    forall k | 0 <= k < i ensures Symbols(after)[k] == symbols[..i + 1][k] {
      assert Symbols(before)[k] == symbols[..i][k];
    }
  }
}
