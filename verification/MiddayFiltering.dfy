/** The midday run over several price bands (src/application/midday_filtering_usecase.py). */
module MiddayFiltering {
  import opened Common

  /** A band with the codes of its screening result. */
  datatype Band = Band(name: string, symbols: seq<Symbol>, screeningFound: bool, comparisonOnly: bool,
                       keepsResult: bool)

  // ---------------------------------------------------------------- which symbols, in which order

  ghost predicate InBand(bands: seq<Band>, comparisonOnly: bool, s: Symbol) {
    exists b :: 0 <= b < |bands| && bands[b].comparisonOnly == comparisonOnly && s in bands[b].symbols
  }

  /** A symbol that some trading band needs. */
  ghost predicate ForTrading(bands: seq<Band>, s: Symbol) {
    InBand(bands, false, s)
  }

  /** The bands with the given flag, in their order. */
  function BandsWith(bands: seq<Band>, comparisonOnly: bool): (chosen: seq<Band>)
    ensures forall k :: 0 <= k < |chosen| ==> chosen[k] in bands && chosen[k].comparisonOnly == comparisonOnly
    ensures forall b :: 0 <= b < |bands| && bands[b].comparisonOnly == comparisonOnly ==> bands[b] in chosen
  {
    if bands == [] then []
    else
      var n := |bands| - 1;
      BandsWith(bands[..n], comparisonOnly) + (if bands[n].comparisonOnly == comparisonOnly then [bands[n]] else [])
  }

  /** Adds the symbols of a band that are not there yet. */
  method AddBand(symbols: seq<Symbol>, band: Band) returns (all: seq<Symbol>)
    requires Distinct(symbols)
    ensures Distinct(all) && symbols <= all
    ensures forall s :: s in all <==> s in symbols || s in band.symbols
  {
    all := symbols;
    for k := 0 to |band.symbols|
      invariant Distinct(all) && symbols <= all
      invariant forall s :: s in all <==> s in symbols || s in band.symbols[..k]
    {
      if band.symbols[k] !in all {
        all := all + [band.symbols[k]];
      }
    }
    assert band.symbols[..|band.symbols|] == band.symbols;
  }

  /** The symbols of all bands once each, those of the trading bands first. */
  method CollectSymbols(bands: seq<Band>) returns (symbols: seq<Symbol>, trading: nat)
    ensures Distinct(symbols) && trading <= |symbols|
    ensures forall s :: s in symbols <==> ForTrading(bands, s) || InBand(bands, true, s)
    ensures forall k :: 0 <= k < |symbols| ==> (k < trading <==> ForTrading(bands, symbols[k]))
  {
    var first, second := BandsWith(bands, false), BandsWith(bands, true);
    symbols := [];
    for b := 0 to |first|
      invariant Distinct(symbols)
      invariant forall s :: s in symbols <==> InSome(first, b, s)
    {
      symbols := AddBand(symbols, first[b]);
    }
    forall s ensures s in symbols <==> ForTrading(bands, s) {}
    trading := |symbols|;
    ghost var before := symbols;
    for b := 0 to |second|
      invariant Distinct(symbols) && before <= symbols
      invariant forall s :: s in symbols <==> s in before || InSome(second, b, s)
    {
      symbols := AddBand(symbols, second[b]);
    }
    forall s ensures s in symbols <==> ForTrading(bands, s) || InBand(bands, true, s) {}
    forall k | 0 <= k < |symbols| ensures k < trading <==> ForTrading(bands, symbols[k]) {
      if symbols[k] in before {
        var i :| 0 <= i < |before| && before[i] == symbols[k];
      }
    }
  }

  ghost predicate InSome(bands: seq<Band>, n: nat, s: Symbol) {
    exists k :: 0 <= k < n && k < |bands| && s in bands[k].symbols
  }

  // ---------------------------------------------------------------- one symbol

  datatype Verdict = NoBars | NoVolume | Traded

  /** What a fetch comes to; an exception is a failure. The window is judged from the fetched bars. */
  datatype Fetch = Failed | Fetched(verdict: Verdict, value: real)

  /** What the run meets while it evaluates one symbol: its fetches, the clock after each, and the
      average turnover. */
  datatype World = World(fetch: nat -> Fetch, clock: nat -> real, average: Option<real>)

  datatype Reason = FetchFailed | NoBarsToday | ZeroVolume | AverageMissing | AverageNonPositive

  datatype Outcome = Outcome(reason: Option<Reason>, attempts: nat, value: real, average: real)

  /** The reason that a fetch and an average leave a symbol out, if any. */
  function ReasonOf(f: Fetch, average: Option<real>): Option<Reason> {
    match f
    case Failed => Some(FetchFailed)
    case Fetched(NoBars, _) => Some(NoBarsToday)
    case Fetched(NoVolume, _) => Some(ZeroVolume)
    case Fetched(Traded, _) =>
      if average.None? then Some(AverageMissing)
      else if average.value <= 0.0 then Some(AverageNonPositive)
      else None
  }

  /** A symbol is left out exactly for the first of these reasons that holds. */
  lemma ReasonIff(f: Fetch, average: Option<real>, reason: Option<Reason>)
    ensures ReasonOf(f, average) == reason <==>
      if f == Failed then reason == Some(FetchFailed)
      else if f.verdict == NoBars then reason == Some(NoBarsToday)
      else if f.verdict == NoVolume then reason == Some(ZeroVolume)
      else
        match average
        case None => reason == Some(AverageMissing)
        case Some(mean) => reason == if mean > 0.0 then None else Some(AverageNonPositive)
  {}

  /** An outcome as the retries allow it: every attempt before the last failed and left time for the
      wait, and the last succeeded, was one too many, or left no time. */
  ghost predicate IsOutcome(w: World, retries: int, wait: real, deadline: real, o: Outcome) {
    && 1 <= o.attempts <= (if retries > 0 then retries else 0) + 1
    && (forall k :: 1 <= k < o.attempts ==> w.fetch(k).Failed? && w.clock(k) + wait < deadline)
    && (w.fetch(o.attempts).Fetched? || o.attempts > retries || w.clock(o.attempts) + wait >= deadline)
    && o.reason == ReasonOf(w.fetch(o.attempts), w.average)
    && (o.reason.None? ==> w.fetch(o.attempts).value == o.value && w.average == Some(o.average) && o.average > 0.0)
  }

  method EvaluateSymbol(w: World, retries: int, wait: real, deadline: real) returns (o: Outcome)
    ensures IsOutcome(w, retries, wait, deadline, o)
  {
    var attempts: nat := 1;
    while w.fetch(attempts).Failed? && attempts <= retries && w.clock(attempts) + wait < deadline
      invariant 1 <= attempts <= (if retries > 0 then retries else 0) + 1
      invariant forall k :: 1 <= k < attempts ==> w.fetch(k).Failed? && w.clock(k) + wait < deadline
      decreases retries - attempts
    {
      attempts := attempts + 1;
    }
    var reason := ReasonOf(w.fetch(attempts), w.average);
    o := Outcome(reason, attempts, if reason.None? then w.fetch(attempts).value else 0.0,
                 if reason.None? then w.average.value else 0.0);
  }

  // ---------------------------------------------------------------- all symbols until the deadline

  ghost predicate Evaluated(worlds: Symbol -> World, retries: int, wait: real, deadline: real,
                            outcomes: map<Symbol, Outcome>) {
    forall s :: s in outcomes ==> IsOutcome(worlds(s), retries, wait, deadline, outcomes[s])
  }

  /** Evaluates the symbols in order until the clock, read before each, reaches the deadline. */
  method FetchAll(symbols: seq<Symbol>, worlds: Symbol -> World, readings: nat -> real, retries: int, wait: real,
                  deadline: real)
    returns (outcomes: map<Symbol, Outcome>, n: nat)
    ensures n <= |symbols| && Evaluated(worlds, retries, wait, deadline, outcomes)
    ensures forall s :: s in outcomes <==> s in symbols[..n]
    ensures n < |symbols| ==> readings(n) >= deadline
    ensures forall k :: 0 <= k < n ==> readings(k) < deadline
  {
    outcomes, n := map[], 0;
    while n < |symbols|
      invariant n <= |symbols| && Evaluated(worlds, retries, wait, deadline, outcomes)
      invariant forall s :: s in outcomes <==> s in symbols[..n]
      invariant forall k :: 0 <= k < n ==> readings(k) < deadline
    {
      if readings(n) >= deadline {
        return;
      }
      var outcome := EvaluateSymbol(worlds(symbols[n]), retries, wait, deadline);
      outcomes := outcomes[symbols[n] := outcome];
      n := n + 1;
    }
  }

  /** Trading goes first: if a symbol of a trading band is not fetched by the deadline, then no symbol
      that only comparison bands need was fetched. */
  ghost predicate TradingFirst(bands: seq<Band>, outcomes: map<Symbol, Outcome>) {
    forall t, s :: ForTrading(bands, t) && t !in outcomes && s in outcomes ==> ForTrading(bands, s)
  }

  method FetchBands(bands: seq<Band>, worlds: Symbol -> World, readings: nat -> real, retries: int, wait: real,
                    deadline: real)
    returns (outcomes: map<Symbol, Outcome>)
    ensures Evaluated(worlds, retries, wait, deadline, outcomes)
    ensures TradingFirst(bands, outcomes)
    ensures forall s :: s in outcomes ==> ForTrading(bands, s) || InBand(bands, true, s)
    ensures (forall k :: readings(k) < deadline) ==> forall s :: ForTrading(bands, s) || InBand(bands, true, s) ==>
      s in outcomes
  {
    var symbols, trading := CollectSymbols(bands);
    var n: nat;
    outcomes, n := FetchAll(symbols, worlds, readings, retries, wait, deadline);
    assert forall i :: 0 <= i < n ==> symbols[..n][i] == symbols[i];
    forall t, s | ForTrading(bands, t) && t !in outcomes && s in outcomes ensures ForTrading(bands, s) {
      var i :| 0 <= i < |symbols| && symbols[i] == t;
      assert n <= i < trading;
      var j :| 0 <= j < n && symbols[..n][j] == s;
      assert symbols[j] == s;
    }
    if forall k :: readings(k) < deadline {
      assert symbols[..n] == symbols;
    }
  }

  // ---------------------------------------------------------------- one band

  datatype Status = Scored(ratio: real) | Skipped(reason: Reason) | NotEvaluated

  datatype Record = Record(symbol: Symbol, status: Status)

  function StatusOf(outcomes: map<Symbol, Outcome>, s: Symbol): Status {
    if s !in outcomes then NotEvaluated
    else if outcomes[s].reason.Some? then Skipped(outcomes[s].reason.value)
    else if outcomes[s].average > 0.0 then Scored(outcomes[s].value / outcomes[s].average)
    else Skipped(AverageNonPositive)
  }

  /** What a status says of the outcome: a ratio, times the positive average, is the value; a reason is that of the
      outcome; and without an outcome nothing was evaluated. */
  ghost predicate StatusSays(outcomes: map<Symbol, Outcome>, s: Symbol, status: Status) {
    match status
    case Scored(ratio) =>
      && s in outcomes && outcomes[s].reason.None? && outcomes[s].average > 0.0
      && ratio * outcomes[s].average == outcomes[s].value
    case Skipped(reason) =>
      && s in outcomes
      && reason == if outcomes[s].reason.Some? then outcomes[s].reason.value else AverageNonPositive
    case NotEvaluated => s !in outcomes
  }

  lemma StatusSaysWhatItIs(outcomes: map<Symbol, Outcome>, s: Symbol)
    ensures StatusSays(outcomes, s, StatusOf(outcomes, s))
  {
    if s in outcomes && outcomes[s].reason.None? && outcomes[s].average > 0.0 {
      QuotientTimes(outcomes[s].value, outcomes[s].average);
    }
  }

  lemma QuotientTimes(x: real, y: real)
    requires y > 0.0
    ensures x / y * y == x
  {}

  datatype Candidate = Candidate(symbol: Symbol, ratio: real)

  datatype Summary = Summary(inputs: nat, evaluated: nat, skipped: nat, unprocessed: nat, timedOut: bool,
                             resultSaved: bool)

  function Scores(records: seq<Record>): seq<Candidate> {
    if records == [] then []
    else
      var last := records[|records| - 1];
      Scores(records[..|records| - 1])
        + (if last.status.Scored? then [Candidate(last.symbol, last.status.ratio)] else [])
  }

  /** One record for each symbol of the band, in order; the scored ones are the candidates; every input
      is counted once; and a result is kept only of a trading band whose symbols were all processed, unless
      saving it raises. */
  method EvaluateBand(band: Band, outcomes: map<Symbol, Outcome>, saveRaises: bool)
    returns (records: seq<Record>, scored: seq<Candidate>, summary: Summary)
    requires forall s :: s in outcomes && outcomes[s].reason.None? ==> outcomes[s].average > 0.0
    ensures |records| == |band.symbols|
    ensures forall k :: 0 <= k < |records| ==>
      && records[k] == Record(band.symbols[k], StatusOf(outcomes, band.symbols[k]))
      && StatusSays(outcomes, band.symbols[k], records[k].status)
    ensures scored == Scores(records)
    ensures summary.inputs == |band.symbols| && summary.evaluated == |scored|
    ensures summary.evaluated + summary.skipped == summary.inputs
    ensures summary.timedOut <==> exists k :: 0 <= k < |band.symbols| && band.symbols[k] !in outcomes
    ensures summary.resultSaved <==>
      && band.keepsResult && !band.comparisonOnly && band.screeningFound && !saveRaises
      && forall k :: 0 <= k < |band.symbols| ==> band.symbols[k] in outcomes
  {
    records, scored := [], [];
    var skipped, unprocessed := 0, 0;
    for k := 0 to |band.symbols|
      invariant |records| == k
      invariant forall i :: 0 <= i < k ==> records[i] == Record(band.symbols[i], StatusOf(outcomes, band.symbols[i]))
      invariant scored == Scores(records)
      invariant |scored| + skipped + unprocessed == k
      invariant unprocessed > 0 <==> exists i :: 0 <= i < k && band.symbols[i] !in outcomes
    {
      var s := band.symbols[k];
      var record := Record(s, StatusOf(outcomes, s));
      if s !in outcomes {
        unprocessed := unprocessed + 1;
      } else if outcomes[s].reason.Some? {
        skipped := skipped + 1;
      } else {
        scored := scored + [Candidate(s, outcomes[s].value / outcomes[s].average)];
      }
      assert (records + [record])[..k] == records;
      records := records + [record];
    }
    var saved := false;
    if band.keepsResult && !band.comparisonOnly && band.screeningFound && unprocessed == 0 {
      saved := !saveRaises;
    }
    forall k | 0 <= k < |band.symbols| ensures StatusSays(outcomes, band.symbols[k], records[k].status) {
      StatusSaysWhatItIs(outcomes, band.symbols[k]);
    }
    summary := Summary(|records|, |scored|, skipped + unprocessed, unprocessed, unprocessed > 0, saved);
  }
}
