/** Average ranks and correlations: the rank correlation of
    scripts/analysis/analyze_price_band_comparison.py and the correlation and slope of
    scripts/analysis/analyze_regime_skip_by_sensitivity.py. Both divide a sum of products by the
    root of a product of sums of squares. */
module RankCorrelation {
  import opened Common

  // ---------------------------------------------------------------- ranks

  /** How many of the values lie below `x`, an equal one counting half. */
  function Score(values: seq<real>, x: real): real {
    if values == [] then 0.0
    else
      var last := values[|values| - 1];
      Score(values[..|values| - 1], x) + (if last < x then 1.0 else if last == x then 0.5 else 0.0)
  }

  /** The average of the positions, from one, that the value and its equals take in sorted order. */
  function MidRank(values: seq<real>, i: nat): real
    requires i < |values|
  {
    Score(values, values[i]) + 0.5
  }

  function Ranks(values: seq<real>): seq<real> {
    seq(|values|, i requires 0 <= i < |values| => MidRank(values, i))
  }

  lemma {:induction false} ScoreOfConcat(a: seq<real>, b: seq<real>, x: real)
    ensures Score(a + b, x) == Score(a, x) + Score(b, x)
  {
    if b == [] {
      assert a + b == a;
    } else {
      assert (a + b)[..|a + b| - 1] == a + b[..|b| - 1];
      ScoreOfConcat(a, b[..|b| - 1], x);
    }
  }

  /** Values below `x` count one each, equal ones half, the others nothing. */
  lemma {:induction false} ScoreOfUniform(values: seq<real>, x: real)
    ensures (forall k :: 0 <= k < |values| ==> values[k] < x) ==> Score(values, x) == |values| as real
    ensures (forall k :: 0 <= k < |values| ==> values[k] == x) ==> Score(values, x) == |values| as real / 2.0
    ensures (forall k :: 0 <= k < |values| ==> values[k] > x) ==> Score(values, x) == 0.0
  {
    if values != [] {
      ScoreOfUniform(values[..|values| - 1], x);
    }
  }

  // ---------------------------------------------------------------- the order of the indices

  ghost predicate Within(order: seq<nat>, n: nat) {
    forall p :: 0 <= p < |order| ==> order[p] < n
  }

  function At(values: seq<real>, order: seq<nat>): (at: seq<real>)
    requires Within(order, |values|)
    ensures |at| == |order|
  {
    seq(|order|, p requires 0 <= p < |order| => values[order[p]])
  }

  /** Where an index belongs: behind all whose values are not larger. */
  function Position(values: seq<real>, order: seq<nat>, i: nat): (p: nat)
    requires Within(order, |values|) && i < |values|
    ensures p <= |order|
    ensures p > 0 ==> values[order[p - 1]] <= values[i]
    ensures forall q :: p <= q < |order| ==> values[i] < values[order[q]]
  {
    if order == [] then 0
    else if values[order[|order| - 1]] <= values[i] then |order|
    else Position(values, order[..|order| - 1], i)
  }

  function Insert(values: seq<real>, order: seq<nat>, i: nat): (r: seq<nat>)
    requires Within(order, |values|) && i < |values|
    ensures Within(r, |values|)
  {
    var p := Position(values, order, i);
    order[..p] + [i] + order[p..]
  }

  /** The first `n` indices in the order of their values, equal ones in their own order. */
  function Order(values: seq<real>, n: nat): (order: seq<nat>)
    requires n <= |values|
    ensures Within(order, |values|)
  {
    if n == 0 then [] else Insert(values, Order(values, n - 1), n - 1)
  }

  lemma InsertionContains(rest: seq<nat>, p: nat, x: nat, i: nat)
    requires p <= |rest| && (i in rest || i == x)
    ensures i in rest[..p] + [x] + rest[p..]
  {
    var all := rest[..p] + [x] + rest[p..];
    if i == x {
      assert all[p] == x;
    } else {
      var k :| 0 <= k < |rest| && rest[k] == i;
      assert all[if k < p then k else k + 1] == i;
    }
  }

  lemma {:induction false} OrderCovers(values: seq<real>, n: nat, i: nat)
    requires i < n <= |values|
    ensures i in Order(values, n)
  {
    var rest := Order(values, n - 1);
    if i < n - 1 {
      OrderCovers(values, n - 1, i);
    }
    InsertionContains(rest, Position(values, rest, n - 1), n - 1, i);
  }

  ghost predicate Sorted(values: seq<real>) {
    values == [] || (Sorted(values[..|values| - 1]) && (|values| > 1 ==> values[|values| - 2] <= values[|values| - 1]))
  }

  lemma {:induction false} SortedBetween(values: seq<real>, p: nat, q: nat)
    requires Sorted(values) && p <= q < |values|
    ensures values[p] <= values[q]
  {
    var n := |values| - 1;
    if q < n {
      SortedBetween(values[..n], p, q);
    } else if p < n {
      SortedBetween(values[..n], p, n - 1);
    }
  }

  lemma ScoreOfOne(v: real, x: real)
    ensures Score([v], x) == if v < x then 1.0 else if v == x then 0.5 else 0.0
  {
    assert [v][..0] == [];
  }

  lemma ScoreOfInsertion(before: seq<real>, v: real, after: seq<real>, x: real)
    ensures Score(before + [v] + after, x) == Score(before + after, x) + Score([v], x)
  {
    ScoreOfConcat(before, after, x);
    ScoreOfConcat(before + [v], after, x);
    ScoreOfConcat(before, [v], x);
  }

  /** Inserting an index, as values. */
  lemma AtInserts(values: seq<real>, rest: seq<nat>, i: nat)
    requires Within(rest, |values|) && i < |values|
    ensures
      var at, p := At(values, rest), Position(values, rest, i);
      && At(values, Insert(values, rest, i)) == at[..p] + [values[i]] + at[p..]
      && (p > 0 ==> at[p - 1] <= values[i]) && (p < |at| ==> values[i] < at[p])
  {}

  ghost predicate InOrder(values: seq<real>, k: nat)
    requires 0 < k < |values|
  {
    values[k - 1] <= values[k]
  }

  lemma {:induction false} SortedIffInOrder(values: seq<real>)
    ensures Sorted(values) <==> forall k :: 0 < k < |values| ==> InOrder(values, k)
  {
    if values != [] {
      var n := |values| - 1;
      var rest := values[..n];
      SortedIffInOrder(rest);
      assert forall k :: 0 < k < n ==> InOrder(rest, k) == InOrder(values, k);
      assert n > 0 ==> InOrder(values, n) == (values[n - 1] <= values[n]);
    }
  }

  lemma InsertedAt(rest: seq<real>, p: nat, v: real, i: nat)
    requires p <= |rest| && i <= |rest|
    ensures (rest[..p] + [v] + rest[p..])[i] == if i < p then rest[i] else if i == p then v else rest[i - 1]
  {}

  lemma InsertedInOrder(rest: seq<real>, p: nat, v: real, k: nat)
    requires 0 < k <= |rest| && p <= |rest|
    requires (p > 0 ==> rest[p - 1] <= v) && (p < |rest| ==> v < rest[p])
    requires (k < p ==> InOrder(rest, k)) && (k > p + 1 ==> InOrder(rest, k - 1))
    ensures InOrder(rest[..p] + [v] + rest[p..], k)
  {
    InsertedAt(rest, p, v, k - 1);
    InsertedAt(rest, p, v, k);
  }

  lemma InsertionKeepsSorted(rest: seq<real>, p: nat, v: real)
    requires Sorted(rest) && p <= |rest|
    requires (p > 0 ==> rest[p - 1] <= v) && (p < |rest| ==> v < rest[p])
    ensures Sorted(rest[..p] + [v] + rest[p..])
  {
    var all := rest[..p] + [v] + rest[p..];
    SortedIffInOrder(rest);
    forall k | 0 < k < |all| ensures InOrder(all, k) {
      InsertedInOrder(rest, p, v, k);
    }
    SortedIffInOrder(all);
  }

  lemma InsertSorts(values: seq<real>, rest: seq<nat>, i: nat)
    requires Within(rest, |values|) && i < |values| && Sorted(At(values, rest))
    ensures Sorted(At(values, Insert(values, rest, i)))
  {
    AtInserts(values, rest, i);
    InsertionKeepsSorted(At(values, rest), Position(values, rest, i), values[i]);
  }

  /** A property that every insertion keeps holds of the order. */
  lemma {:induction false} OrderKeeps(values: seq<real>, n: nat, P: seq<nat> -> bool)
    requires n <= |values| && P([])
    requires forall rest, i: nat :: Within(rest, |values|) && i < |values| && P(rest) ==> P(Insert(values, rest, i))
    ensures P(Order(values, n))
  {
    if n > 0 {
      OrderKeeps(values, n - 1, P);
    }
  }

  lemma OrderSorts(values: seq<real>, n: nat)
    requires n <= |values|
    ensures Sorted(At(values, Order(values, n)))
  {
    var sorted := (order: seq<nat>) => Within(order, |values|) && Sorted(At(values, order));
    forall rest, i: nat | Within(rest, |values|) && i < |values| && sorted(rest)
      ensures sorted(Insert(values, rest, i)) {
      InsertSorts(values, rest, i);
    }
    OrderKeeps(values, n, sorted);
  }

  lemma ScoreOfSplitInsertion(rest: seq<real>, p: nat, v: real, x: real)
    requires p <= |rest|
    ensures Score(rest[..p] + [v] + rest[p..], x) == Score(rest, x) + Score([v], x)
  {
    ScoreOfInsertion(rest[..p], v, rest[p..], x);
    assert rest == rest[..p] + rest[p..];
  }

  lemma ScoreOfPrefix(values: seq<real>, n: nat, x: real)
    requires 0 < n <= |values|
    ensures Score(values[..n], x) == Score(values[..n - 1], x) + Score([values[n - 1]], x)
  {
    ScoreOfConcat(values[..n - 1], [values[n - 1]], x);
    assert values[..n] == values[..n - 1] + [values[n - 1]];
  }

  lemma {:induction false} OrderKeepsScores(values: seq<real>, n: nat, x: real)
    requires n <= |values|
    ensures Score(At(values, Order(values, n)), x) == Score(values[..n], x)
  {
    if n > 0 {
      var rest := Order(values, n - 1);
      OrderKeepsScores(values, n - 1, x);
      InsertAddsScore(values, rest, n - 1, x);
      ScoreOfPrefix(values, n, x);
    }
  }

  lemma InsertAddsScore(values: seq<real>, rest: seq<nat>, i: nat, x: real)
    requires Within(rest, |values|) && i < |values|
    ensures Score(At(values, Insert(values, rest, i)), x) == Score(At(values, rest), x) + Score([values[i]], x)
  {
    AtInserts(values, rest, i);
    ScoreOfSplitInsertion(At(values, rest), Position(values, rest, i), values[i], x);
  }

  ghost predicate IsGroup(sorted: seq<real>, cursor: nat, end: nat, x: real) {
    && cursor < end <= |sorted|
    && (forall p :: cursor <= p < end ==> sorted[p] == x)
    && (cursor > 0 ==> sorted[cursor - 1] != x) && (end < |sorted| ==> sorted[end] != x)
  }

  lemma GroupParts(sorted: seq<real>, cursor: nat, end: nat, x: real)
    requires Sorted(sorted) && IsGroup(sorted, cursor, end, x)
    ensures forall k :: 0 <= k < cursor ==> sorted[k] < x
    ensures forall k :: end <= k < |sorted| ==> sorted[k] > x
  {
    assert sorted[cursor] == x;
    forall k | 0 <= k < cursor ensures sorted[k] < x {
      SortedBetween(sorted, k, cursor - 1);
      SortedBetween(sorted, cursor - 1, cursor);
    }
    forall k | end <= k < |sorted| ensures sorted[k] > x {
      SortedBetween(sorted, cursor, end);
      SortedBetween(sorted, end, k);
    }
  }

  lemma ThreeParts(values: seq<real>, cursor: nat, end: nat, x: real)
    requires cursor <= end <= |values|
    ensures Score(values, x) == Score(values[..cursor], x) + Score(values[cursor..end], x) + Score(values[end..], x)
  {
    var first, rest, middle, last := values[..cursor], values[cursor..], values[cursor..end], values[end..];
    assert values == first + rest && rest == middle + last;
    ScoreOfConcat(first, rest, x);
    ScoreOfConcat(middle, last, x);
  }

  lemma ScoreOfParts(values: seq<real>, cursor: nat, end: nat, x: real)
    requires cursor <= end <= |values|
    requires forall k :: 0 <= k < cursor ==> values[k] < x
    requires forall k :: cursor <= k < end ==> values[k] == x
    requires forall k :: end <= k < |values| ==> values[k] > x
    ensures Score(values, x) == cursor as real + (end - cursor) as real / 2.0
  {
    ThreeParts(values, cursor, end, x);
    ScoreOfUniform(values[..cursor], x);
    ScoreOfUniform(values[cursor..end], x);
    ScoreOfUniform(values[end..], x);
  }

  /** In sorted order, the group of a value decides its score. */
  lemma GroupScore(sorted: seq<real>, cursor: nat, end: nat, x: real)
    requires Sorted(sorted) && IsGroup(sorted, cursor, end, x)
    ensures Score(sorted, x) == cursor as real + (end - cursor) as real / 2.0
  {
    GroupParts(sorted, cursor, end, x);
    ScoreOfParts(sorted, cursor, end, x);
  }

  /** The end of the group of equal values that starts at `cursor`. */
  method GroupEnd(values: seq<real>, order: seq<nat>, cursor: nat) returns (end: nat)
    requires Within(order, |values|) && cursor < |order|
    ensures cursor < end <= |order|
    ensures forall p :: cursor <= p < end ==> values[order[p]] == values[order[cursor]]
    ensures end < |order| ==> values[order[end]] != values[order[cursor]]
  {
    end := cursor + 1;
    while end < |order| && values[order[end]] == values[order[cursor]]
      invariant cursor < end <= |order|
      invariant forall p :: cursor <= p < end ==> values[order[p]] == values[order[cursor]]
    {
      end := end + 1;
    }
  }

  lemma OrderScore(values: seq<real>, x: real)
    ensures Score(At(values, Order(values, |values|)), x) == Score(values, x)
  {
    OrderKeepsScores(values, |values|, x);
    assert values[..|values|] == values;
  }

  lemma ScoreInOrder(values: seq<real>, cursor: nat, end: nat, x: real)
    requires IsGroup(At(values, Order(values, |values|)), cursor, end, x)
    ensures Score(values, x) == cursor as real + (end - cursor) as real / 2.0
  {
    OrderSorts(values, |values|);
    OrderScore(values, x);
    GroupScore(At(values, Order(values, |values|)), cursor, end, x);
  }

  /** An index that stands between two places of the order. */
  ghost predicate StandsIn(order: seq<nat>, from: nat, to: nat, i: nat) {
    exists p :: from <= p < to && p < |order| && order[p] == i
  }

  lemma RankOfGroup(values: seq<real>, order: seq<nat>, cursor: nat, end: nat, x: real, i: nat)
    requires Within(order, |values|) && forall p :: cursor <= p < end && p < |order| ==> values[order[p]] == x
    requires Score(values, x) == cursor as real + (end - cursor) as real / 2.0
    requires i < |values| && StandsIn(order, cursor, end, i)
    ensures MidRank(values, i) == (cursor + 1 + end) as real / 2.0
  {
    assert values[i] == x;
  }

  /** Writes the rank of a group to its indices. */
  method WriteGroup(ranks: array<real>, order: seq<nat>, cursor: nat, end: nat, average: real)
    requires Within(order, ranks.Length) && cursor <= end <= |order|
    modifies ranks
    ensures forall i :: 0 <= i < ranks.Length ==>
      ranks[i] == if StandsIn(order, cursor, end, i) then average else old(ranks[i])
  {
    for k := cursor to end
      invariant forall i :: 0 <= i < ranks.Length ==>
        ranks[i] == if StandsIn(order, cursor, k, i) then average else old(ranks[i])
    {
      ranks[order[k]] := average;
      assert forall i :: StandsIn(order, cursor, k + 1, i) <==> StandsIn(order, cursor, k, i) || i == order[k];
    }
  }

  method AverageRanks(values: seq<real>) returns (ranks: array<real>)
    ensures fresh(ranks) && ranks[..] == Ranks(values)
  {
    var order := Order(values, |values|);
    ranks := new real[|values|](_ => 0.0);
    var cursor := 0;
    while cursor < |order|
      invariant 0 <= cursor <= |order|
      invariant 0 < cursor < |order| ==> values[order[cursor - 1]] != values[order[cursor]]
      invariant forall i :: 0 <= i < |values| && StandsIn(order, 0, cursor, i) ==> ranks[i] == MidRank(values, i)
    {
      var end := GroupEnd(values, order, cursor);
      ScoreInOrder(values, cursor, end, values[order[cursor]]);
      forall i | 0 <= i < |values| && StandsIn(order, cursor, end, i)
        ensures MidRank(values, i) == (cursor + 1 + end) as real / 2.0 {
        RankOfGroup(values, order, cursor, end, values[order[cursor]], i);
      }
      WriteGroup(ranks, order, cursor, end, (cursor + 1 + end) as real / 2.0);
      assert forall i :: StandsIn(order, 0, end, i) ==>
        StandsIn(order, 0, cursor, i) || StandsIn(order, cursor, end, i);
      cursor := end;
    }
    forall i | 0 <= i < |values| ensures ranks[i] == MidRank(values, i) {
      OrderCovers(values, |values|, i);
    }
  }

  // ---------------------------------------------------------------- what the ranks are

  lemma {:induction false} ScoreIsMonotone(values: seq<real>, x: real, y: real)
    requires x < y
    ensures Score(values, x) <= Score(values, y)
    ensures (exists k :: 0 <= k < |values| && x <= values[k] <= y) ==> Score(values, x) < Score(values, y)
  {
    if values != [] {
      var n := |values| - 1;
      ScoreIsMonotone(values[..n], x, y);
      if k :| 0 <= k < |values| && x <= values[k] <= y {
        if k < n {
          assert values[..n][k] == values[k];
        }
      }
    }
  }

  /** Equal values have equal ranks, and larger values larger ones. */
  lemma RanksPreserveOrder(values: seq<real>, i: nat, j: nat)
    requires i < |values| && j < |values|
    ensures values[i] == values[j] <==> MidRank(values, i) == MidRank(values, j)
    ensures values[i] < values[j] <==> MidRank(values, i) < MidRank(values, j)
  {
    if values[i] < values[j] {
      ScoreIsMonotone(values, values[i], values[j]);
    } else if values[j] < values[i] {
      ScoreIsMonotone(values, values[j], values[i]);
    }
  }

  /** The scores of several values. */
  function Scores(values: seq<real>, xs: seq<real>): real {
    if xs == [] then 0.0 else Scores(values, xs[..|xs| - 1]) + Score(values, xs[|xs| - 1])
  }

  /** Of two different values one is below the other, and equal ones share the point. */
  lemma {:induction false} ScoresShareThePoints(values: seq<real>, x: real)
    ensures Score(values, x) + Scores([x], values) == |values| as real
  {
    if values != [] {
      var n := |values| - 1;
      ScoresShareThePoints(values[..n], x);
      ScoreOfOne(x, values[n]);
    }
  }

  lemma {:induction false} ScoresOfConcat(a: seq<real>, b: seq<real>, xs: seq<real>)
    ensures Scores(a + b, xs) == Scores(a, xs) + Scores(b, xs)
  {
    if xs != [] {
      ScoresOfConcat(a, b, xs[..|xs| - 1]);
      ScoreOfConcat(a, b, xs[|xs| - 1]);
    }
  }

  lemma {:induction false} AllScores(values: seq<real>)
    ensures Scores(values, values) == (|values| * |values|) as real / 2.0
  {
    if values != [] {
      var n := |values| - 1;
      var rest, x := values[..n], values[n];
      AllScores(rest);
      assert values == rest + [x];
      ScoresOfConcat(rest, [x], rest);
      ScoresShareThePoints(rest, x);
      ScoreOfConcat(rest, [x], x);
      ScoreOfOne(x, x);
      assert |values| * |values| == n * n + 2 * n + 1;
    }
  }

  lemma {:induction false} SumOfFirstRanks(values: seq<real>, n: nat)
    requires n <= |values|
    ensures Sum(Ranks(values)[..n]) == Scores(values, values[..n]) + n as real / 2.0
  {
    if n > 0 {
      SumOfFirstRanks(values, n - 1);
      assert Ranks(values)[..n][..n - 1] == Ranks(values)[..n - 1];
      assert values[..n][..n - 1] == values[..n - 1];
    }
  }

  /** The ranks of `n` values add up to n(n+1)/2, however many are tied. */
  lemma RanksAddUp(values: seq<real>)
    ensures Sum(Ranks(values)) == (|values| * (|values| + 1)) as real / 2.0
  {
    SumOfFirstRanks(values, |values|);
    AllScores(values);
    assert Ranks(values)[..|values|] == Ranks(values) && values[..|values|] == values;
    assert |values| * (|values| + 1) == |values| * |values| + |values|;
  }

  // ---------------------------------------------------------------- correlations

  /** The sum of the products. */
  function Dot(a: seq<real>, b: seq<real>): real
    requires |a| == |b|
  {
    if a == [] then 0.0 else Dot(a[..|a| - 1], b[..|b| - 1]) + a[|a| - 1] * b[|b| - 1]
  }

  lemma DotStep(a: seq<real>, b: seq<real>, n: nat)
    requires |a| == |b| && n < |a|
    ensures Dot(a[..n + 1], b[..n + 1]) == Dot(a[..n], b[..n]) + a[n] * b[n]
  {
    assert a[..n + 1][..n] == a[..n] && b[..n + 1][..n] == b[..n];
  }

  lemma {:induction false} SumOfSquares(a: seq<real>)
    ensures 0.0 <= Dot(a, a)
  {
    if a != [] {
      SumOfSquares(a[..|a| - 1]);
      SquareIsPositive(a[|a| - 1]);
    }
  }

  lemma {:induction false} NoSquares(a: seq<real>)
    requires Dot(a, a) <= 0.0
    ensures forall i :: 0 <= i < |a| ==> a[i] == 0.0
  {
    if a != [] {
      var n := |a| - 1;
      SumOfSquares(a[..n]);
      SquareIsPositive(a[n]);
      NoSquares(a[..n]);
      SquareIsZero(a[n]);
    }
  }

  lemma {:induction false} OnlyZeros(a: seq<real>)
    requires forall i :: 0 <= i < |a| ==> a[i] == 0.0
    ensures Dot(a, a) == 0.0
  {
    if a != [] {
      OnlyZeros(a[..|a| - 1]);
    }
  }

  lemma ZeroIfBounded(aa: real, ab: real, bb: real)
    requires (aa == 0.0 || bb == 0.0) && ab * ab <= aa * bb
    ensures ab == 0.0
  {
    SquareIsZero(ab);
  }

  /** The mixed terms of one more pair are bounded by the pure ones. */
  lemma MixedTermsAreBounded(aa: real, ab: real, bb: real, x: real, y: real)
    requires 0.0 <= aa && 0.0 <= bb && ab * ab <= aa * bb
    ensures 2.0 * (ab * (x * y)) <= aa * (y * y) + bb * (x * x)
  {
    SquareIsPositive(y);
    if bb == 0.0 {
      ZeroIfBounded(aa, ab, bb);
      ScaleKeepsOrder(0.0, aa, y * y);
    } else {
      SquareIsPositive(ab * y - bb * x);
      ScaleKeepsOrder(ab * ab, aa * bb, y * y);
    }
  }

  lemma BoundStep(aa: real, ab: real, bb: real, x: real, y: real, aa': real, ab': real, bb': real)
    requires 0.0 <= aa && 0.0 <= bb && ab * ab <= aa * bb
    requires aa' == aa + x * x && ab' == ab + x * y && bb' == bb + y * y
    ensures ab' * ab' <= aa' * bb'
  {
    MixedTermsAreBounded(aa, ab, bb, x, y);
    assert ab' * ab' == ab * ab + 2.0 * (ab * (x * y)) + (x * y) * (x * y);
    assert aa' * bb' == aa * bb + aa * (y * y) + bb * (x * x) + (x * x) * (y * y);
    assert (x * y) * (x * y) == (x * x) * (y * y);
  }

  /** The square of a sum of products is at most the product of the sums of squares. */
  lemma {:induction false} DotIsBounded(a: seq<real>, b: seq<real>)
    requires |a| == |b|
    ensures Dot(a, b) * Dot(a, b) <= Dot(a, a) * Dot(b, b)
  {
    if a != [] {
      var n := |a| - 1;
      DotIsBounded(a[..n], b[..n]);
      SumOfSquares(a[..n]);
      SumOfSquares(b[..n]);
      BoundStep(Dot(a[..n], a[..n]), Dot(a[..n], b[..n]), Dot(b[..n], b[..n]), a[n], b[n], Dot(a, a), Dot(a, b),
                Dot(b, b));
    }
  }

  function Mean(xs: seq<real>): real
    requires xs != []
  {
    Sum(xs) / |xs| as real
  }

  function Deviations(xs: seq<real>): seq<real>
    requires xs != []
  {
    var mean := Mean(xs);
    seq(|xs|, i requires 0 <= i < |xs| => xs[i] - mean)
  }

  /** `sqrt` of the runtime, as an exact root. */
  ghost predicate IsRoot(sqrt: real -> real) {
    forall z :: z >= 0.0 ==> sqrt(z) >= 0.0 && sqrt(z) * sqrt(z) == z
  }

  lemma QuotientIsBounded(num: real, root: real, product: real)
    requires root > 0.0 && root * root == product && num * num <= product
    ensures -1.0 <= num / root <= 1.0
  {
    var q := num / root;
    assert q * root == num;
    if q > 1.0 {
      SquaresGrow(root, num);
    } else if q < -1.0 {
      SquaresGrow(root, -num);
    }
  }

  function Quotient(numerator: real, denominator: real): Option<real> {
    if denominator == 0.0 then None else Some(numerator / denominator)
  }

  /** A correlation, given the sums it is computed from and the root of their product: absent exactly
      when one of the lists has no deviation, and within [-1, 1] otherwise. */
  ghost predicate IsCorrelation(r: Option<real>, ab: real, aa: real, bb: real, root: real) {
    && root >= 0.0
    && (r.None? <==> aa == 0.0 || bb == 0.0)
    && (r.Some? ==> -1.0 <= r.value <= 1.0 && r.value * root == ab && root * root == aa * bb)
  }

  /** The correlation of two lists: their sum of products over the root of the product of their sums of squares. */
  ghost predicate IsCorrelationOf(r: Option<real>, x: seq<real>, y: seq<real>)
    requires |x| == |y| && x != []
  {
    var dx, dy := Deviations(x), Deviations(y);
    exists root :: IsCorrelation(r, Dot(dx, dy), Dot(dx, dx), Dot(dy, dy), root)
  }

  lemma RootIsZeroIff(aa: real, bb: real, root: real)
    requires 0.0 <= aa && 0.0 <= bb && root * root == aa * bb
    ensures root == 0.0 <==> aa == 0.0 || bb == 0.0
  {
    if aa == 0.0 || bb == 0.0 {
      ZeroIfBounded(aa, root, bb);
    }
  }

  lemma QuotientIsCorrelation(ab: real, aa: real, bb: real, root: real)
    requires 0.0 <= aa && 0.0 <= bb && ab * ab <= aa * bb
    requires root >= 0.0 && root * root == aa * bb
    ensures IsCorrelation(Quotient(ab, root), ab, aa, bb, root)
  {
    RootIsZeroIff(aa, bb, root);
    if root != 0.0 {
      QuotientIsBounded(ab, root, aa * bb);
    }
  }

  lemma SquaresGrow(a: real, b: real)
    requires 0.0 < a < b
    ensures a * a < b * b
  {}

  /** The products and squares of the deviations, as both scripts sum them up. */
  method Moments(x: seq<real>, y: seq<real>) returns (sxy: real, sxx: real, syy: real)
    requires |x| == |y| && x != []
    ensures sxy == Dot(Deviations(x), Deviations(y))
    ensures sxx == Dot(Deviations(x), Deviations(x)) && syy == Dot(Deviations(y), Deviations(y))
  {
    var dx, dy := Deviations(x), Deviations(y);
    sxy, sxx, syy := 0.0, 0.0, 0.0;
    for i := 0 to |x|
      invariant sxy == Dot(dx[..i], dy[..i]) && sxx == Dot(dx[..i], dx[..i]) && syy == Dot(dy[..i], dy[..i])
    {
      DotStep(dx, dy, i);
      DotStep(dx, dx, i);
      DotStep(dy, dy, i);
      sxy := sxy + dx[i] * dy[i];
      sxx := sxx + dx[i] * dx[i];
      syy := syy + dy[i] * dy[i];
    }
    assert dx[..|x|] == dx && dy[..|x|] == dy;
  }

  predicate Constant(xs: seq<real>) {
    forall i :: 0 <= i < |xs| ==> xs[i] == xs[0]
  }

  lemma {:induction false} SumOfConstant(xs: seq<real>, c: real)
    requires forall i :: 0 <= i < |xs| ==> xs[i] == c
    ensures Sum(xs) == |xs| as real * c
  {
    if xs != [] {
      SumOfConstant(xs[..|xs| - 1], c);
      assert |xs| as real * c == (|xs| - 1) as real * c + c;
    }
  }

  /** There is no deviation exactly when all values are the same. */
  lemma NoDeviationIffConstant(xs: seq<real>)
    requires xs != []
    ensures 0.0 <= Dot(Deviations(xs), Deviations(xs))
    ensures Dot(Deviations(xs), Deviations(xs)) == 0.0 <==> Constant(xs)
  {
    var d := Deviations(xs);
    SumOfSquares(d);
    if Constant(xs) {
      SumOfConstant(xs, xs[0]);
      QuotientOfMultiple(Sum(xs), |xs| as real, xs[0]);
      OnlyZeros(d);
    } else if Dot(d, d) == 0.0 {
      NoSquares(d);
      forall i | 0 <= i < |xs| ensures xs[i] == xs[0] {
        assert d[i] == d[0];
      }
    }
  }

  lemma RanksAreConstantIff(values: seq<real>)
    requires values != []
    ensures Constant(Ranks(values)) <==> Constant(values)
  {
    forall i | 0 <= i < |values| ensures Ranks(values)[i] == Ranks(values)[0] <==> values[i] == values[0] {
      RanksPreserveOrder(values, i, 0);
    }
  }

  /** The correlation of two lists, from their deviations. */
  method Correlate(x: seq<real>, y: seq<real>, sqrt: real -> real) returns (r: Option<real>)
    requires |x| == |y| && x != [] && IsRoot(sqrt)
    ensures r.None? <==> Constant(x) || Constant(y)
    ensures r.Some? ==> -1.0 <= r.value <= 1.0
    ensures IsCorrelationOf(r, x, y)
  {
    NoDeviationIffConstant(x);
    NoDeviationIffConstant(y);
    DotIsBounded(Deviations(x), Deviations(y));
    var sxy, sxx, syy := Moments(x, y);
    var root;
    r, root := FromSums(sxy, sxx, syy, sqrt);
  }

  method FromSums(sxy: real, sxx: real, syy: real, sqrt: real -> real) returns (r: Option<real>, root: real)
    requires 0.0 <= sxx && 0.0 <= syy && sxy * sxy <= sxx * syy && IsRoot(sqrt)
    ensures IsCorrelation(r, sxy, sxx, syy, root)
  {
    root := sqrt(sxx * syy);
    QuotientIsCorrelation(sxy, sxx, syy, root);
    r := if root == 0.0 then None else Some(sxy / root);
  }

  /** The rank correlation is defined exactly when neither list is constant, and lies within [-1, 1]. */
  method Spearman(x: seq<real>, y: seq<real>, sqrt: real -> real) returns (r: Option<real>)
    requires IsRoot(sqrt)
    ensures r.None? <==> |x| != |y| || |x| < 2 || Constant(x) || Constant(y)
    ensures r.Some? ==> -1.0 <= r.value <= 1.0
    ensures r.Some? ==> IsCorrelationOf(r, Ranks(x), Ranks(y))
  {
    if |x| != |y| || |x| < 2 {
      return None;
    }
    RanksAreConstantIff(x);
    RanksAreConstantIff(y);
    var xRanks := AverageRanks(x);
    var yRanks := AverageRanks(y);
    r := Correlate(xRanks[..], yRanks[..], sqrt);
  }

  // ---------------------------------------------------------------- sensitivity to the index

  type Day = nat

  /** The days before `before` that both series have, in order. */
  function CommonDays(stock: map<Day, real>, index: map<Day, real>, before: Day): (days: seq<Day>)
    ensures forall k :: 0 <= k < |days| ==> days[k] in stock && days[k] in index && days[k] < before
  {
    AscendingIsSorted(stock.Keys * index.Keys, before);
    var days := Ascending(stock.Keys * index.Keys, before);
    assert forall k :: 0 <= k < |days| ==> days[k] in days;
    days
  }

  /** The last `window` days. A window of zero takes all, as the slice `[-0:]` does. */
  function Recent(days: seq<Day>, window: Option<nat>): seq<Day> {
    if window.None? || window.value == 0 || window.value >= |days| then days else days[|days| - window.value..]
  }

  /** Without a window, or with one of zero, the days are exactly those before the date that both series have; with a
      window they are exactly those after which fewer than that many others come. */
  lemma RecentDaysIff(stock: map<Day, real>, index: map<Day, real>, before: Day, window: Option<nat>, day: Day)
    ensures
      var all, days := CommonDays(stock, index, before), Recent(CommonDays(stock, index, before), window);
      && (forall k, l :: 0 <= k < l < |days| ==> days[k] < days[l])
      && (day in all <==> day in stock && day in index && day < before)
      && (day in days <==>
            && day in all
            && (window.Some? && window.value > 0 ==> |Filter(all, (d: Day) => d > day)| < window.value))
  {
    AscendingIsSorted(stock.Keys * index.Keys, before);
    var all := CommonDays(stock, index, before);
    if day in all {
      var k :| 0 <= k < |all| && all[k] == day;
      LaterDays(all, k);
    }
  }

  /** In ascending order, the days after one are those at later places. */
  lemma {:induction false} LaterDays(days: seq<Day>, k: nat)
    requires k < |days| && forall i, j :: 0 <= i < j < |days| ==> days[i] < days[j]
    ensures |Filter(days, (d: Day) => d > days[k])| == |days| - 1 - k
  {
    var n := |days| - 1;
    if k < n {
      LaterDays(days[..n], k);
    } else {
      NoLaterDays(days[..n], days[k]);
    }
  }

  lemma {:induction false} NoLaterDays(days: seq<Day>, day: Day)
    requires forall i :: 0 <= i < |days| ==> days[i] <= day
    ensures Filter(days, (d: Day) => d > day) == []
  {
    if days != [] {
      NoLaterDays(days[..|days| - 1], day);
    }
  }

  function ValuesAt(series: map<Day, real>, days: seq<Day>): seq<real>
    requires forall k :: 0 <= k < |days| ==> days[k] in series
  {
    seq(|days|, k requires 0 <= k < |days| => series[days[k]])
  }

  datatype Estimate = Estimate(correlation: real, beta: real)

  /** The slope of the line that fits best, by the normal equation. */
  ghost predicate IsSlope(slope: real, sxy: real, sxx: real) {
    slope * sxx == sxy
  }

  /** The correlation and the slope of `y` over `x`, as the sums of products and squares define them. */
  ghost predicate IsEstimate(e: Estimate, x: seq<real>, y: seq<real>)
    requires |x| == |y| && x != []
  {
    && IsCorrelationOf(Some(e.correlation), x, y)
    && IsSlope(e.beta, Dot(Deviations(x), Deviations(y)), Dot(Deviations(x), Deviations(x)))
  }

  lemma EstimateFits(correlation: Option<real>, slope: real, x: seq<real>, y: seq<real>, sxy: real, sxx: real,
                     syy: real, root: real)
    requires |x| == |y| && x != [] && correlation.Some?
    requires
      var dx, dy := Deviations(x), Deviations(y);
      sxy == Dot(dx, dy) && sxx == Dot(dx, dx) && syy == Dot(dy, dy)
    requires IsSlope(slope, sxy, sxx) && IsCorrelation(correlation, sxy, sxx, syy, root)
    ensures IsEstimate(Estimate(correlation.value, slope), x, y) && -1.0 <= correlation.value <= 1.0
  {}

  /** Correlation and slope of two lists: absent exactly when one of them is constant; the correlation
      lies within [-1, 1] and the slope fits the sums. */
  method EstimateFrom(x: seq<real>, y: seq<real>, sqrt: real -> real) returns (r: Option<Estimate>)
    requires |x| == |y| && x != [] && IsRoot(sqrt)
    ensures r.None? <==> Constant(x) || Constant(y)
    ensures r.Some? ==> -1.0 <= r.value.correlation <= 1.0 && IsEstimate(r.value, x, y)
  {
    NoDeviationIffConstant(x);
    NoDeviationIffConstant(y);
    var sxy, sxx, syy := Moments(x, y);
    if sxx <= 0.0 || syy <= 0.0 {
      return None;
    }
    DotIsBounded(Deviations(x), Deviations(y));
    var correlation, root := FromSums(sxy, sxx, syy, sqrt);
    assert correlation.Some?;
    var slope := Slope(sxy, sxx);
    EstimateFits(correlation, slope, x, y, sxy, sxx, syy, root);
    r := Some(Estimate(correlation.value, slope));
  }

  function Slope(sxy: real, sxx: real): (slope: real)
    requires sxx > 0.0
    ensures IsSlope(slope, sxy, sxx)
  {
    sxy / sxx
  }

  /** Over the recent common days, when they are enough. */
  method CorrelationAndBeta(stock: map<Day, real>, index: map<Day, real>, before: Day, window: Option<nat>,
                            minimum: nat, sqrt: real -> real)
    returns (r: Result<Option<Estimate>>, observations: nat)
    requires IsRoot(sqrt)
    ensures observations == |Recent(CommonDays(stock, index, before), window)|
    ensures r.Raised? <==> minimum == 0 && observations == 0
    ensures r.Ok? ==>
      var days := Recent(CommonDays(stock, index, before), window);
      r.value.None? <==> observations < minimum || Constant(ValuesAt(index, days)) || Constant(ValuesAt(stock, days))
    ensures r.Ok? && r.value.Some? ==>
      var days := Recent(CommonDays(stock, index, before), window);
      && days != [] && -1.0 <= r.value.value.correlation <= 1.0
      && IsEstimate(r.value.value, ValuesAt(index, days), ValuesAt(stock, days))
  {
    var days := Recent(CommonDays(stock, index, before), window);
    observations := |days|;
    if |days| < minimum {
      return Ok(None), observations;
    }
    if days == [] {
      return Raised, observations;
    }
    var estimate := EstimateFrom(ValuesAt(index, days), ValuesAt(stock, days), sqrt);
    r := Ok(estimate);
  }

  lemma {:induction false} AscendingIgnoresRest(s: set<nat>, t: set<nat>, limit: nat)
    requires forall x :: x < limit ==> (x in s <==> x in t)
    ensures Ascending(s, limit) == Ascending(t, limit)
  {
    if limit > 0 {
      AscendingIgnoresRest(s, t, limit - 1);
    }
  }

  /** No look-ahead: the days and their values are the same for series that agree before the date. */
  lemma LaterDaysDoNotMatter(stock: map<Day, real>, index: map<Day, real>, stock': map<Day, real>,
                             index': map<Day, real>, before: Day, window: Option<nat>)
    requires forall d :: d < before ==> (d in stock <==> d in stock') && (d in stock ==> stock[d] == stock'[d])
    requires forall d :: d < before ==> (d in index <==> d in index') && (d in index ==> index[d] == index'[d])
    ensures
      var days, days' := Recent(CommonDays(stock, index, before), window),
        Recent(CommonDays(stock', index', before), window);
      && days == days' && ValuesAt(index, days) == ValuesAt(index', days')
           && ValuesAt(stock, days) == ValuesAt(stock', days')
  {
    AscendingIgnoresRest(stock.Keys * index.Keys, stock'.Keys * index'.Keys, before);
  }
}
