/** Small vocabulary shared by the components of the model: absent values and raised exceptions,
    sums, the products and squares that real arithmetic needs spelled out, sets of numbers in ascending
    order, and `Fold`, which is what a loop over a sequence makes of its state.

    The loops that the program runs in place are proved equal to folds; `FoldKeeps` then gives what
    every turn of a loop keeps, `FoldTurn` one more turn, and `FoldSplit` a loop cut in two. */
module Common {

  /** A value that may be absent, where the program uses `None`. */
  datatype Option<+T> = None | Some(value: T)

  /** A computation that the program may abandon by raising. */
  datatype Result<+T> = Ok(value: T) | Raised

  /** Security codes, numbered in the order in which the program sorts their text. */
  type Symbol = nat

  function Min(a: real, b: real): real {
    if b < a then b else a
  }

  function Max(a: real, b: real): real {
    if b > a then b else a
  }

  function Abs(x: real): real {
    if x < 0.0 then -x else x
  }

  function Sum(xs: seq<real>): real {
    if xs == [] then 0.0 else Sum(xs[..|xs| - 1]) + xs[|xs| - 1]
  }

  ghost predicate Distinct(xs: seq<nat>) {
    forall i, j :: 0 <= i < j < |xs| ==> xs[i] != xs[j]
  }

  /** Multiplication by a non-negative number keeps the order. */
  lemma ScaleKeepsOrder(a: real, b: real, c: real)
    requires a <= b && 0.0 <= c
    ensures a * c <= b * c && c * a <= c * b
  {
    assert 0.0 <= (b - a) * c;
  }

  lemma ScaleIsStrict(a: real, b: real, c: real)
    requires a < b && 0.0 < c
    ensures a * c < b * c && c * a < c * b
  {
    assert 0.0 < (b - a) * c;
  }

  lemma SquareIsPositive(x: real)
    ensures 0.0 <= x * x
  {
    if 0.0 <= x {
      ScaleKeepsOrder(0.0, x, x);
    } else {
      ScaleKeepsOrder(0.0, -x, -x);
      assert -x * -x == x * x;
    }
  }

  lemma EqualFactors(x: real, y: real)
    requires x == y && x * y <= 0.0
    ensures x == 0.0
  {
    if x > 0.0 {
      ScaleIsStrict(0.0, x, y);
    } else if x < 0.0 {
      ScaleIsStrict(x, 0.0, -y);
    }
  }

  lemma SquareIsZero(x: real)
    requires x * x <= 0.0
    ensures x == 0.0
  {
    EqualFactors(x, x);
  }

  lemma QuotientOfMultiple(total: real, n: real, c: real)
    requires n > 0.0 && total == n * c
    ensures total / n == c
  {
    var q := total / n;
    assert q * n == total;
    if q < c {
      ScaleIsStrict(q, c, n);
    } else if q > c {
      ScaleIsStrict(c, q, n);
    }
  }

  /** The members of `s` below `limit`, in ascending order. */
  function Ascending(s: set<nat>, limit: nat): seq<nat> {
    if limit == 0 then []
    else Ascending(s, limit - 1) + (if limit - 1 in s then [limit - 1] else [])
  }

  /** `Ascending` lists exactly the members below the limit, once each and in order. */
  lemma {:induction false} AscendingIsSorted(s: set<nat>, limit: nat)
    ensures forall x :: x in Ascending(s, limit) <==> x in s && x < limit
    ensures forall i, j :: 0 <= i < j < |Ascending(s, limit)| ==> Ascending(s, limit)[i] < Ascending(s, limit)[j]
  {
    if limit > 0 {
      AscendingIsSorted(s, limit - 1);
      var rest := Ascending(s, limit - 1);
      assert forall i :: 0 <= i < |rest| ==> rest[i] in rest;
    }
  }

  ghost predicate IsLargest(s: set<nat>, x: nat) {
    x in s && forall y :: y in s ==> y <= x
  }

  lemma {:induction false} HasLargest(s: set<nat>)
    requires s != {}
    ensures exists x :: IsLargest(s, x)
  {
    var z :| z in s;
    var rest := s - {z};
    var largest := z;
    if rest != {} {
      HasLargest(rest);
      var x :| IsLargest(rest, x);
      largest := if x < z then z else x;
    }
    forall y | y in s ensures y <= largest {
      assert y == z || y in rest;
    }
    assert IsLargest(s, largest);
  }

  /** A bound above all members. */
  function Limit(s: set<nat>): (limit: nat)
    ensures forall x :: x in s ==> x < limit
  {
    if s == {} then 0
    else
      HasLargest(s);
      var x: nat :| x in s && forall y :: y in s ==> y <= x;
      x + 1
  }

  /** The members in ascending order. */
  function Sorted(s: set<nat>): seq<nat> {
    Ascending(s, Limit(s))
  }

  /** The members of a sequence that `mine` selects, in their order. */
  function Filter<X>(xs: seq<X>, mine: X -> bool): seq<X> {
    if xs == [] then []
    else Filter(xs[..|xs| - 1], mine) + (if mine(xs[|xs| - 1]) then [xs[|xs| - 1]] else [])
  }

  lemma FilterTurn<X>(xs: seq<X>, x: X, mine: X -> bool)
    ensures Filter(xs + [x], mine) == Filter(xs, mine) + if mine(x) then [x] else []
  {
    assert (xs + [x])[..|xs|] == xs;
  }

  /** What a loop over `xs` makes of `a` when each turn applies `step`. */
  function Fold<A, X>(step: (A, X) -> A, a: A, xs: seq<X>): A {
    if xs == [] then a
    else step(Fold(step, a, xs[..|xs| - 1]), xs[|xs| - 1])
  }

  /** A property that every turn keeps holds after the loop. */
  lemma {:induction false} FoldKeeps<A(!new), X(!new)>(step: (A, X) -> A, a: A, xs: seq<X>, P: A -> bool, Q: X -> bool)
    requires P(a) && forall k :: 0 <= k < |xs| ==> Q(xs[k])
    requires forall b, x :: P(b) && Q(x) ==> P(step(b, x))
    ensures P(Fold(step, a, xs))
  {
    if xs != [] {
      FoldKeeps(step, a, xs[..|xs| - 1], P, Q);
      assert Q(xs[|xs| - 1]);
    }
  }

  /** The same when the property depends on how many turns have been taken. */
  lemma {:induction false} FoldReaches<A(!new), X>(step: (A, X) -> A, a: A, xs: seq<X>, n: nat, P: (nat, A) -> bool)
    requires n <= |xs| && P(0, a)
    requires forall i: nat, b :: i < |xs| && P(i, b) ==> P(i + 1, step(b, xs[i]))
    ensures P(n, Fold(step, a, xs[..n]))
  {
    if n > 0 {
      FoldReaches(step, a, xs, n - 1, P);
      FoldTurn(step, a, xs, n - 1);
    }
  }

  /** One more turn. */
  lemma FoldTurn<A, X>(step: (A, X) -> A, a: A, xs: seq<X>, i: nat)
    requires i < |xs|
    ensures Fold(step, a, xs[..i + 1]) == step(Fold(step, a, xs[..i]), xs[i])
  {
    assert xs[..i + 1][..i] == xs[..i];
  }

  lemma FoldStep<A, X>(step: (A, X) -> A, a: A, xs: seq<X>, x: X)
    ensures Fold(step, a, xs + [x]) == step(Fold(step, a, xs), x)
  {
    assert (xs + [x])[..|xs|] == xs;
  }

  /** A loop can be split anywhere. */
  lemma {:induction false} FoldSplit<A, X>(step: (A, X) -> A, a: A, xs: seq<X>, k: nat)
    requires k <= |xs|
    ensures Fold(step, a, xs) == Fold(step, Fold(step, a, xs[..k]), xs[k..])
  {
    if k == |xs| {
      assert xs[..k] == xs && xs[k..] == [];
    } else {
      var n := |xs| - 1;
      FoldSplit(step, a, xs[..n], k);
      assert xs[..n][..k] == xs[..k];
      assert xs[k..][..|xs[k..]| - 1] == xs[..n][k..];
    }
  }
}
