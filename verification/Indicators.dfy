/** The price band and the relative strength index (src/domain/rules.py). */
module Indicators {
  import opened Common
  import opened Backtest
  import ExitLines

  // ---------------------------------------------------------------- the band

  /** One percent around the mean of the last five closes, rounded. */
  function PriceLimit(closes: seq<real>, round: real -> real): Option<RawBand> {
    if |closes| < 5 then None
    else
      var mean := Sum(LastOf(closes, 5)) / 5.0;
      Some(Band(round(mean * 0.99), round(mean * 1.01)))
  }

  /** The band lies one percent to either side of the mean of the last five closes. */
  lemma BandIsAroundMean(closes: seq<real>, round: real -> real, mean: real)
    requires |closes| >= 5
    requires
      var n := |closes|;
      mean * 5.0 == closes[n - 5] + closes[n - 4] + closes[n - 3] + closes[n - 2] + closes[n - 1]
    ensures PriceLimit(closes, round) == Some(Band(round(mean * 99.0 / 100.0), round(mean * 101.0 / 100.0)))
  {
    var last := LastOf(closes, 5);
    assert last[..4][..3] == last[..3] && last[..3][..2] == last[..2] && last[..2][..1] == last[..1];
    assert Sum(last[..1]) == last[0] && Sum(last[..2]) == Sum(last[..1]) + last[1];
    assert Sum(last[..3]) == Sum(last[..2]) + last[2] && Sum(last[..4]) == Sum(last[..3]) + last[3];
    assert Sum(last) == Sum(last[..4]) + last[4];
  }

  // ---------------------------------------------------------------- the strength index

  function Gains(closes: seq<real>): seq<real>
    requires closes != []
  {
    seq(|closes| - 1, i requires 0 <= i < |closes| - 1 => Max(closes[i + 1] - closes[i], 0.0))
  }

  function Losses(closes: seq<real>): seq<real>
    requires closes != []
  {
    seq(|closes| - 1, i requires 0 <= i < |closes| - 1 => Max(closes[i] - closes[i + 1], 0.0))
  }

  /** One more value taken into the average of `period`. */
  function Smooth(average: real, period: nat, x: real): real
    requires period > 0
  {
    (average * (period - 1) as real + x) / period as real
  }

  /** The average of the first `period` values, into which the others up to `n` are taken one by one. */
  function Smoothed(xs: seq<real>, period: nat, n: nat): real
    requires 0 < period <= n <= |xs|
  {
    if n == period then Sum(xs[..period]) / period as real
    else Smooth(Smoothed(xs, period, n - 1), period, xs[n - 1])
  }

  function StrengthOf(gain: real, loss: real): real
    requires gain >= 0.0 && loss >= 0.0
  {
    if loss == 0.0 then (if gain == 0.0 then 50.0 else 100.0)
    else if gain == 0.0 then 0.0
    else 100.0 - 100.0 / (1.0 + gain / loss)
  }

  /** Enough closes, all of them positive. */
  predicate Computable(closes: seq<real>, period: nat, minimum: nat) {
    |closes| >= minimum && |closes| >= period + 1 && forall i :: 0 <= i < |closes| ==> closes[i] > 0.0
  }

  function Rsi(closes: seq<real>, period: nat, minimum: nat): Option<real>
    requires period > 0
  {
    if !Computable(closes, period, minimum) then None
    else
      var n := |closes| - 1;
      SmoothedIsNotNegative(Gains(closes), period, n);
      SmoothedIsNotNegative(Losses(closes), period, n);
      Some(StrengthOf(Smoothed(Gains(closes), period, n), Smoothed(Losses(closes), period, n)))
  }

  /** A change between two closes is a gain or a loss of its size, and never both. */
  lemma ChangesAreGainsOrLosses(closes: seq<real>, i: nat)
    requires i + 1 < |closes|
    ensures
      var change := closes[i + 1] - closes[i];
      && Gains(closes)[i] - Losses(closes)[i] == change && Gains(closes)[i] + Losses(closes)[i] == Abs(change)
  {}

  /** The smoothed average starts with the mean of the first values and takes each further one in with a weight of one
      in `period`. */
  lemma SmoothedTurns(xs: seq<real>, period: nat, n: nat)
    requires 0 < period <= n <= |xs|
    ensures n == period ==> Smoothed(xs, period, n) * period as real == Sum(xs[..period])
    ensures n > period ==>
      var before := Smoothed(xs, period, n - 1);
      (Smoothed(xs, period, n) - before) * period as real == xs[n - 1] - before
  {
    if n > period {
      var before, k := Smoothed(xs, period, n - 1), period as real;
      assert (period - 1) as real == k - 1.0;
      SmoothTurns(before, k, xs[n - 1]);
    }
  }

  lemma SmoothTurns(average: real, period: real, x: real)
    requires period > 0.0
    ensures ((average * (period - 1.0) + x) / period - average) * period == x - average
  {
    var total := average * (period - 1.0) + x;
    assert total / period * period == total;
  }

  /** The index is the share of the gains in gains and losses, in percent, and 50 when there are neither. */
  lemma StrengthIsShareOfGains(gain: real, loss: real)
    requires gain >= 0.0 && loss >= 0.0
    ensures gain + loss == 0.0 ==> StrengthOf(gain, loss) == 50.0
    ensures gain + loss > 0.0 ==> StrengthOf(gain, loss) * (gain + loss) == 100.0 * gain
  {
    if gain > 0.0 && loss > 0.0 {
      ShareOfGains(gain, loss);
    }
  }

  lemma ShareOfGains(gain: real, loss: real)
    requires gain > 0.0 && loss > 0.0
    ensures (100.0 - 100.0 / (1.0 + gain / loss)) * (gain + loss) == 100.0 * gain
  {
    var ratio := gain / loss;
    var rest := 100.0 / (1.0 + ratio);
    assert ratio * loss == gain && ratio >= 0.0 by {
      QuotientIsNotNegative(gain, loss);
    }
    assert (1.0 + ratio) * loss == gain + loss;
    assert rest * (1.0 + ratio) == 100.0;
    ProductOfThree(rest, 1.0 + ratio, loss);
  }

  lemma ProductOfThree(x: real, y: real, z: real)
    ensures x * (y * z) == x * y * z
  {}

  /** There is no index exactly with fewer closes than asked for or than changes to average, or with one that is not
      positive. */
  lemma NoIndexIff(closes: seq<real>, period: nat, minimum: nat)
    requires period > 0
    ensures Rsi(closes, period, minimum).None? <==>
            |closes| < minimum || |closes| <= period || exists close :: close in closes && close <= 0.0
  {
    assert forall i :: 0 <= i < |closes| ==> closes[i] in closes;
    assert (forall i :: 0 <= i < |closes| ==> closes[i] > 0.0) <==> !exists close :: close in closes && close <= 0.0;
  }

  ghost predicate NotNegative(xs: seq<real>) {
    forall i :: 0 <= i < |xs| ==> xs[i] >= 0.0
  }

  lemma {:induction false} SumIsNotNegative(xs: seq<real>)
    requires NotNegative(xs)
    ensures Sum(xs) >= 0.0
  {
    if xs != [] {
      SumIsNotNegative(xs[..|xs| - 1]);
    }
  }

  lemma QuotientIsNotNegative(x: real, y: real)
    requires x >= 0.0 && y > 0.0
    ensures x / y >= 0.0
    ensures x / y == 0.0 <==> x == 0.0
  {
    var q := x / y;
    assert q * y == x;
    if q < 0.0 {
      ScaleKeepsOrder(-q, 0.0, y);
    }
  }

  lemma SmoothIsNotNegative(average: real, period: nat, x: real)
    requires period > 0 && average >= 0.0 && x >= 0.0
    ensures Smooth(average, period, x) >= 0.0
    ensures period > 1 ==> (Smooth(average, period, x) == 0.0 <==> average == 0.0 && x == 0.0)
  {
    var weighted := average * (period - 1) as real;
    ScaleKeepsOrder(0.0, average, (period - 1) as real);
    QuotientIsNotNegative(weighted + x, period as real);
    if period > 1 {
      assert weighted == 0.0 <==> average == 0.0;
    }
  }

  lemma {:induction false} SmoothedIsNotNegative(xs: seq<real>, period: nat, n: nat)
    requires 0 < period <= n <= |xs| && NotNegative(xs)
    ensures Smoothed(xs, period, n) >= 0.0
  {
    if n == period {
      SumIsNotNegative(xs[..period]);
      QuotientIsNotNegative(Sum(xs[..period]), period as real);
    } else {
      SmoothedIsNotNegative(xs, period, n - 1);
      SmoothIsNotNegative(Smoothed(xs, period, n - 1), period, xs[n - 1]);
    }
  }

  /** The loop that smooths gains and losses together computes the index. */
  method CalculateRsi(closes: seq<real>, period: nat, minimum: nat) returns (r: Option<real>)
    requires period > 0
    ensures r == Rsi(closes, period, minimum)
  {
    if !Computable(closes, period, minimum) {
      return None;
    }
    var gains, losses, n := Gains(closes), Losses(closes), |closes| - 1;
    assert NotNegative(gains) && NotNegative(losses) && |gains| == |losses| == n;
    var averageGain, averageLoss := Sum(gains[..period]) / period as real, Sum(losses[..period]) / period as real;
    for k := period to n
      invariant averageGain == Smoothed(gains, period, k) && averageLoss == Smoothed(losses, period, k)
    {
      averageGain := Smooth(averageGain, period, gains[k]);
      averageLoss := Smooth(averageLoss, period, losses[k]);
    }
    SmoothedIsNotNegative(gains, period, n);
    SmoothedIsNotNegative(losses, period, n);
    r := Some(StrengthOf(averageGain, averageLoss));
  }

  // ---------------------------------------------------------------- where the index ends

  ghost predicate Zeros(xs: seq<real>) {
    forall i :: 0 <= i < |xs| ==> xs[i] == 0.0
  }

  lemma {:induction false} SumIsZeroIff(xs: seq<real>)
    requires NotNegative(xs)
    ensures Sum(xs) == 0.0 <==> Zeros(xs)
  {
    if xs != [] {
      var rest := xs[..|xs| - 1];
      SumIsNotNegative(rest);
      SumIsZeroIff(rest);
      assert Zeros(xs) <==> Zeros(rest) && xs[|xs| - 1] == 0.0;
    }
  }

  lemma {:induction false} SmoothedIsZeroIff(xs: seq<real>, period: nat, n: nat)
    requires 1 < period <= n <= |xs| && NotNegative(xs)
    ensures Smoothed(xs, period, n) == 0.0 <==> Zeros(xs[..n])
  {
    if n == period {
      SumIsNotNegative(xs[..n]);
      SumIsZeroIff(xs[..n]);
      QuotientIsNotNegative(Sum(xs[..n]), period as real);
    } else {
      SmoothedIsNotNegative(xs, period, n - 1);
      SmoothedIsZeroIff(xs, period, n - 1);
      SmoothIsNotNegative(Smoothed(xs, period, n - 1), period, xs[n - 1]);
      assert Zeros(xs[..n]) <==> Zeros(xs[..n - 1]) && xs[n - 1] == 0.0;
    }
  }

  lemma StrengthIsBounded(gain: real, loss: real)
    requires gain >= 0.0 && loss >= 0.0
    ensures 0.0 <= StrengthOf(gain, loss) <= 100.0
    ensures StrengthOf(gain, loss) == 100.0 <==> loss == 0.0 && gain > 0.0
    ensures StrengthOf(gain, loss) == 0.0 <==> gain == 0.0 && loss > 0.0
  {
    if loss > 0.0 && gain > 0.0 {
      QuotientIsNotNegative(gain, loss);
      ShareIsBetween(1.0 + gain / loss);
    }
  }

  lemma ShareIsBetween(whole: real)
    requires whole > 1.0
    ensures 0.0 < 100.0 / whole < 100.0
  {
    var share := 100.0 / whole;
    assert share * whole == 100.0;
    if share >= 100.0 {
      ScaleKeepsOrder(100.0, share, whole);
    }
    if share <= 0.0 {
      ScaleKeepsOrder(share, 0.0, whole);
    }
  }

  ghost predicate NeverFalls(closes: seq<real>) {
    forall i :: 1 <= i < |closes| ==> closes[i - 1] <= closes[i]
  }

  ghost predicate NeverRises(closes: seq<real>) {
    forall i :: 1 <= i < |closes| ==> closes[i - 1] >= closes[i]
  }

  lemma ChangeAt(closes: seq<real>, i: nat)
    requires i + 1 < |closes|
    ensures |Gains(closes)| == |closes| - 1 && (Gains(closes)[i] == 0.0 <==> closes[i] >= closes[i + 1])
    ensures |Losses(closes)| == |closes| - 1 && (Losses(closes)[i] == 0.0 <==> closes[i] <= closes[i + 1])
  {}

  lemma NoRiseIff(closes: seq<real>)
    requires closes != []
    ensures Zeros(Gains(closes)) <==> NeverRises(closes)
  {
    var gains := Gains(closes);
    if Zeros(gains) {
      forall i | 1 <= i < |closes| ensures closes[i - 1] >= closes[i] {
        ChangeAt(closes, i - 1);
      }
    } else {
      var i :| 0 <= i < |gains| && gains[i] != 0.0;
      ChangeAt(closes, i);
      var j := i + 1;
      assert !(closes[j - 1] >= closes[j]);
    }
  }

  lemma NoFallIff(closes: seq<real>)
    requires closes != []
    ensures Zeros(Losses(closes)) <==> NeverFalls(closes)
  {
    var losses := Losses(closes);
    if Zeros(losses) {
      forall i | 1 <= i < |closes| ensures closes[i - 1] <= closes[i] {
        ChangeAt(closes, i - 1);
      }
    } else {
      var i :| 0 <= i < |losses| && losses[i] != 0.0;
      ChangeAt(closes, i);
      var j := i + 1;
      assert !(closes[j - 1] <= closes[j]);
    }
  }

  /** The index lies between 0 and 100, and at an end exactly when the closes go only one way. */
  lemma RsiIsBounded(closes: seq<real>, period: nat, minimum: nat)
    requires period > 1 && Computable(closes, period, minimum)
    ensures
      var r := Rsi(closes, period, minimum);
      && r.Some? && 0.0 <= r.value <= 100.0
      && (r.value == 100.0 <==> NeverFalls(closes) && !NeverRises(closes))
      && (r.value == 0.0 <==> NeverRises(closes) && !NeverFalls(closes))
  {
    var n, gains, losses := |closes| - 1, Gains(closes), Losses(closes);
    SmoothedIsNotNegative(gains, period, n);
    SmoothedIsNotNegative(losses, period, n);
    SmoothedIsZeroIff(gains, period, n);
    SmoothedIsZeroIff(losses, period, n);
    assert gains[..n] == gains && losses[..n] == losses;
    NoRiseIff(closes);
    NoFallIff(closes);
    StrengthIsBounded(Smoothed(gains, period, n), Smoothed(losses, period, n));
  }

  // ---------------------------------------------------------------- a series that buys

  /** Rules whose indicators are the program's. A band around zero, on which the program would divide by
      zero, is not asked for. */
  ghost predicate UsesProgramIndicators(rules: Rules, period: nat, round: real -> real) {
    && period > 1
    && (forall closes :: rules.rsi(closes) == Rsi(closes, period, rules.minimumCloses))
    && forall closes :: var limit := PriceLimit(closes, round);
         if limit.None? then rules.priceLimit(closes) == None
         else limit.value.lower + limit.value.upper != 0.0 ==> rules.priceLimit(closes) == Some(limit.value)
  }

  /** Rounding to one decimal, however ties go. */
  ghost predicate RoundsToTenths(round: real -> real) {
    forall x :: x - 0.05 <= round(x) <= x + 0.05
  }

  /** Closes that rise by one from 100. */
  function Rising(n: nat): seq<real> {
    seq(n, i => 100.0 + i as real)
  }

  lemma RisingMean(n: nat)
    requires n >= 5
    ensures Sum(LastOf(Rising(n), 5)) / 5.0 == 97.0 + n as real
  {
    var last := LastOf(Rising(n), 5);
    assert forall i :: 0 <= i < 5 ==> last[i] == 95.0 + (n + i) as real;
    assert last[..4][..3] == last[..3] && last[..3][..2] == last[..2] && last[..2][..1] == last[..1]
      && last[..1][..0] == [];
    assert Sum(last[..1]) == last[0];
    assert Sum(last[..2]) == last[0] + last[1];
    assert Sum(last[..3]) == last[0] + last[1] + last[2];
    assert Sum(last[..4]) == last[0] + last[1] + last[2] + last[3];
  }

  lemma RisingStrength(n: nat, period: nat)
    requires 1 < period < n
    ensures Rsi(Rising(n), period, n) == Some(100.0)
  {
    var closes := Rising(n);
    assert closes[0] < closes[1];
    RsiIsBounded(closes, period, n);
  }

  lemma RisingLimit(round: real -> real)
    requires RoundsToTenths(round)
    ensures PriceLimit(Rising(30), round).Some?
    ensures
      var limit := PriceLimit(Rising(30), round).value;
      125.0 < limit.lower < 126.0 && 128.0 < limit.upper < 129.0
  {
    RisingMean(30);
    var mean := Sum(LastOf(Rising(30), 5)) / 5.0;
    assert mean == 127.0;
    assert 125.0 < round(mean * 0.99) < 126.0 && 128.0 < round(mean * 1.01) < 129.0;
  }

  lemma AboveBandBuys(rules: Rules, previous: seq<real>, limit: Band, price: real)
    requires |previous| >= rules.minimumCloses && rules.priceLimit(previous) == Some(limit)
      && rules.rsi(previous) == Some(100.0)
    requires rules.noiseBand == 0.0 && rules.trendStrength == 0.0 && rules.buyThreshold == 1.0
      && rules.sellThreshold == 1.0
    requires limit.lower < price && limit.upper <= price && rules.entryThreshold <= 100.0
    ensures SignalFrom(rules, previous, price, NormalMarket) == Some(Buy)
  {}

  /** After closes that only rise, a jump above the band buys. */
  lemma RisingThenJumpBuys(rules: Rules, period: nat, round: real -> real, price: real)
    requires UsesProgramIndicators(rules, period, round) && RoundsToTenths(round)
    requires rules.minimumCloses == 30 && period < 30 && rules.noiseBand == 0.0 && rules.trendStrength == 0.0
    requires rules.buyThreshold == 1.0 && rules.sellThreshold == 1.0 && 0.0 <= rules.entryThreshold <= 100.0
    requires price >= 200.0
    ensures SignalFrom(rules, Rising(30), price, NormalMarket) == Some(Buy)
  {
    RisingStrength(30, period);
    RisingLimit(round);
    var limit := PriceLimit(Rising(30), round).value;
    assert rules.priceLimit(Rising(30)) == Some(limit);
    assert rules.rsi(Rising(30)) == Some(100.0);
    AboveBandBuys(rules, Rising(30), limit, price);
  }

  /** Plain rules with the program's indicators: one share at a time, a stop at half the cost, no costs. */
  function PlainRules(period: nat, round: real -> real, delay: nat, limitOrders: bool): Rules
    requires period > 0
  {
    Rules(0.0, 0.0, delay, limitOrders, 1.0, 1.0, 0.0, 0.0, 0.5, false, true, false, false, None, 1, None, None, 1,
          30, 50.0, 50.0, 0.0, 0.5, false, ExitLines.Settings(1.0, 1.0, 1.0, 1.0, 1.0, 1.0, 0.0),
          _ => None,
          (closes: seq<real>) =>
            var limit := PriceLimit(closes, round);
            if limit.None? || limit.value.lower + limit.value.upper == 0.0 then None else Some(limit.value),
          (closes: seq<real>) => Rsi(closes, period, 30))
  }

  lemma PlainRulesUseProgramIndicators(period: nat, round: real -> real, delay: nat, limitOrders: bool)
    requires period > 1
    ensures UsesProgramIndicators(PlainRules(period, round, delay, limitOrders), period, round)
  {}
}
