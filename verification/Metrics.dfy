/** Performance figures of a list of realized results
    (src/application/backtest_usecase.py, `_calculate_metrics`). */
module Metrics {
  import opened Common

  /** Equity after the first `n` results. */
  function Equity(start: real, results: seq<real>, n: nat): real
    requires n <= |results|
  {
    if n == 0 then start else Equity(start, results, n - 1) + results[n - 1]
  }

  /** How many results are gains. */
  function Wins(results: seq<real>): nat {
    if results == [] then 0
    else Wins(results[..|results| - 1]) + (if results[|results| - 1] > 0.0 then 1 else 0)
  }

  function GrossProfit(results: seq<real>): real {
    if results == [] then 0.0 else GrossProfit(results[..|results| - 1]) + Max(0.0, results[|results| - 1])
  }

  function GrossLoss(results: seq<real>): real {
    if results == [] then 0.0 else GrossLoss(results[..|results| - 1]) - Min(0.0, results[|results| - 1])
  }

  ghost function Gains(): real -> bool {
    (x: real) => x > 0.0
  }

  ghost function Losses(): real -> bool {
    (x: real) => x < 0.0
  }

  /** The wins are the gains, the gross profit is their sum, and the gross loss is what the losses lose. */
  lemma {:induction false} FiguresCountGainsAndLosses(results: seq<real>)
    ensures Wins(results) == |Filter(results, Gains())|
    ensures GrossProfit(results) == Sum(Filter(results, Gains()))
    ensures GrossLoss(results) == -Sum(Filter(results, Losses()))
  {
    if results != [] {
      var rest, last := results[..|results| - 1], results[|results| - 1];
      FiguresCountGainsAndLosses(rest);
      SumTurn(Filter(rest, Gains()), last);
      SumTurn(Filter(rest, Losses()), last);
    }
  }

  lemma SumTurn(xs: seq<real>, x: real)
    ensures Sum(xs + [x]) == Sum(xs) + x && xs + [] == xs
  {
    assert (xs + [x])[..|xs|] == xs;
  }

  lemma QuotientTimes(x: real, y: real)
    requires y > 0.0
    ensures x / y * y == x
  {}

  /** How far equity falls from moment `i` to moment `j`. */
  function Fall(start: real, results: seq<real>, i: nat, j: nat): real
    requires i <= j <= |results|
  {
    Equity(start, results, i) - Equity(start, results, j)
  }

  /** `d` is the largest fall of equity from some moment to a later one. */
  ghost predicate IsMaxDrawdown(d: real, start: real, results: seq<real>) {
    && (exists i: nat, j: nat :: i <= j <= |results| && Fall(start, results, i, j) == d)
    && (forall i: nat, j: nat :: i <= j <= |results| ==> Fall(start, results, i, j) <= d)
  }

  lemma {:induction false} EquityOfPrefix(start: real, results: seq<real>, n: nat, i: nat)
    requires i <= n <= |results|
    ensures Equity(start, results[..n], i) == Equity(start, results, i)
  {
    if i > 0 {
      EquityOfPrefix(start, results, n, i - 1);
    }
  }

  /** Gains less losses are what the account has moved by. */
  lemma {:induction false} ProfitAndLossBalance(start: real, results: seq<real>)
    ensures GrossProfit(results) >= 0.0 && GrossLoss(results) >= 0.0
    ensures start + GrossProfit(results) - GrossLoss(results) == Equity(start, results, |results|)
  {
    if results != [] {
      var n := |results| - 1;
      ProfitAndLossBalance(start, results[..n]);
      EquityOfPrefix(start, results, n, n);
    }
  }

  /** The running peak and the running drawdown find the largest peak-to-trough fall. */
  method MaxDrawdown(results: seq<real>, start: real) returns (maxDrawdown: real)
    ensures IsMaxDrawdown(maxDrawdown, start, results)
  {
    var running, peak := start, start;
    maxDrawdown := 0.0;
    ghost var top, from, to: nat := 0, 0, 0;
    for k := 0 to |results|
      invariant running == Equity(start, results, k)
      invariant 0 <= top <= k && peak == Equity(start, results, top)
      invariant forall i: nat :: i <= k ==> Equity(start, results, i) <= peak
      invariant 0 <= from <= to <= k
      invariant maxDrawdown == Fall(start, results, from, to)
      invariant forall i: nat, j: nat :: i <= j <= k ==> Fall(start, results, i, j) <= maxDrawdown
    {
      running := running + results[k];
      if running > peak { top := k + 1; }
      peak := Max(peak, running);
      if peak - running > maxDrawdown { from, to := top, k + 1; }
      maxDrawdown := Max(maxDrawdown, peak - running);
    }
  }

  /** The number of gains, their sum, and what the losses lose. */
  method Tally(results: seq<real>) returns (wins: nat, grossProfit: real, grossLoss: real)
    ensures wins == Wins(results) && grossProfit == GrossProfit(results) && grossLoss == GrossLoss(results)
  {
    wins, grossProfit, grossLoss := 0, 0.0, 0.0;
    for k := 0 to |results|
      invariant wins == Wins(results[..k])
      invariant grossProfit == GrossProfit(results[..k])
      invariant grossLoss == GrossLoss(results[..k])
    {
      assert results[..k + 1][..k] == results[..k];
      wins := wins + if results[k] > 0.0 then 1 else 0;
      grossProfit := grossProfit + Max(0.0, results[k]);
      grossLoss := grossLoss - Min(0.0, results[k]);
    }
    assert results[..|results|] == results;
  }

  ghost predicate IsShare(share: real, part: real, whole: real) {
    whole > 0.0 && share * whole == part
  }

  /** The share of a part in a positive whole. */
  function Quotient(part: real, whole: real): (share: real)
    requires whole > 0.0
    ensures IsShare(share, part, whole)
  {
    QuotientTimes(part, whole);
    part / whole
  }

  /** The win rate is the share of the gains among the results, and the profit factor what the gains bring for each unit
      that the losses lose; it is absent when infinite. */
  ghost predicate AreRates(winRate: real, profitFactor: Option<real>, results: seq<real>) {
    var profit, loss := Sum(Filter(results, Gains())), -Sum(Filter(results, Losses()));
    && IsShare(winRate, |Filter(results, Gains())| as real, |results| as real)
    && (if profitFactor.Some? then IsShare(profitFactor.value, profit, loss) else loss == 0.0)
  }

  method Rates(results: seq<real>) returns (winRate: real, profitFactor: Option<real>)
    requires results != []
    ensures AreRates(winRate, profitFactor, results)
  {
    var wins, grossProfit, grossLoss := Tally(results);
    FiguresCountGainsAndLosses(results);
    ProfitAndLossBalance(0.0, results);
    winRate := Quotient(wins as real, |results| as real);
    profitFactor := if grossLoss > 0.0 then Some(Quotient(grossProfit, grossLoss)) else None;
  }

  /** Win rate, profit factor and drawdown. Without results all are zero. */
  method CalculateMetrics(results: seq<real>, startingCash: real)
    returns (winRate: real, profitFactor: Option<real>, maxDrawdown: real)
    ensures results == [] ==> winRate == 0.0 && profitFactor == Some(0.0)
    ensures results != [] ==> AreRates(winRate, profitFactor, results)
    ensures IsMaxDrawdown(maxDrawdown, startingCash, results)
  {
    if results == [] {
      assert Fall(startingCash, results, 0, 0) == 0.0;
      return 0.0, Some(0.0), 0.0;
    }
    winRate, profitFactor := Rates(results);
    maxDrawdown := MaxDrawdown(results, startingCash);
  }
}
