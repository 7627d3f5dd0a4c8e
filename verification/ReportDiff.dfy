/** Comparison of JSON reports (scripts/ops/recompute_daily_reports.py, `_differences`). */
module ReportDiff {
  import opened Common

  datatype Kind = Boolean | Integer | Float

  /** A parsed JSON value. Python compares booleans, integers and floats by their numeric value. */
  datatype Json =
    | Null
    | Number(value: real, kind: Kind)
    | Text(text: string)
    | List(items: seq<Json>)
    | Dict(fields: map<string, Json>)

  const PROFIT: string := "total_profit_loss"

  /** Equality as Python's `==` has it. */
  predicate PyEqual(a: Json, b: Json)
    decreases a
  {
    match a
    case Null => b.Null?
    case Number(value, _) => b.Number? && b.value == value
    case Text(text) => b == a
    case List(items) => b.List? && |b.items| == |items| && forall i :: 0 <= i < |items| ==>
      PyEqual(items[i], b.items[i])
    case Dict(fields) =>
      b.Dict? && b.fields.Keys == fields.Keys && forall k :: k in fields ==> PyEqual(fields[k], b.fields[k])
  }

  /** The value with all numbers as floats. */
  function Plain(a: Json): Json
    decreases a
  {
    match a
    case Number(value, _) => Number(value, Float)
    case List(items) => List(seq(|items|, i requires 0 <= i < |items| => Plain(items[i])))
    case Dict(fields) => Dict(map k | k in fields :: Plain(fields[k]))
    case _ => a
  }

  /** Two values are equal exactly when they are the same but for the kinds of their numbers. */
  lemma {:induction false} EqualIffPlainSame(a: Json, b: Json)
    ensures PyEqual(a, b) <==> Plain(a) == Plain(b)
    decreases a
  {
    if a.Dict? && b.Dict? {
      forall k | k in a.fields && k in b.fields
        ensures PyEqual(a.fields[k], b.fields[k]) <==> Plain(a).fields[k] == Plain(b).fields[k]
      {
        EqualIffPlainSame(a.fields[k], b.fields[k]);
      }
      assert Plain(a).fields.Keys == a.fields.Keys && Plain(b).fields.Keys == b.fields.Keys;
    } else if a.List? && b.List? {
      forall i | 0 <= i < |a.items| && i < |b.items|
        ensures PyEqual(a.items[i], b.items[i]) <==> Plain(a).items[i] == Plain(b).items[i]
      {
        EqualIffPlainSame(a.items[i], b.items[i]);
      }
      assert |Plain(a).items| == |a.items| && |Plain(b).items| == |b.items|;
    }
  }

  function Digits(n: nat): string {
    (if n < 10 then "" else Digits(n / 10)) + ["0123456789"[n % 10]]
  }

  /** The number that a text of digits stands for. */
  function NumberOf(digits: string): nat {
    if digits == "" then 0
    else
      var last := digits[|digits| - 1] as int - '0' as int;
      10 * NumberOf(digits[..|digits| - 1]) + if last < 0 then 0 else last
  }

  /** A position is written in digits that stand for it. */
  lemma {:induction false} DigitsStandFor(n: nat)
    ensures NumberOf(Digits(n)) == n && Digits(n) != ""
  {
    var last := "0123456789"[n % 10];
    assert last as int - '0' as int == n % 10;
    if n >= 10 {
      DigitsStandFor(n / 10);
      assert Digits(n)[..|Digits(n)| - 1] == Digits(n / 10);
    } else {
      assert Digits(n) == [last] && [last][..0] == "";
    }
  }

  function KeyPath(path: string, key: string): string {
    if path == "" then key else path + "." + key
  }

  function IndexPath(path: string, index: nat): string {
    path + "[" + Digits(index) + "]"
  }

  /** The paths at which two values differ. */
  function Differences(a: Json, b: Json, path: string): (paths: set<string>)
    decreases a
  {
    if a.Dict? && b.Dict? then
      (set k | k in a.fields.Keys + b.fields.Keys && (k !in a.fields || k !in b.fields) :: KeyPath(path, k)) +
      (set k, p | k in a.fields.Keys * b.fields.Keys && p in Differences(a.fields[k], b.fields[k], KeyPath(path, k)) ::
       p)
    else if a.List? && b.List? then
      if |a.items| != |b.items| then {path}
      else set i, p | 0 <= i < |a.items| && p in Differences(a.items[i], b.items[i], IndexPath(path, i)) :: p
    else if PyEqual(a, b) then {}
    else {path}
  }

  /** There is no difference exactly when the values are equal. */
  lemma {:induction false} NoDifferenceIffEqual(a: Json, b: Json, path: string)
    ensures Differences(a, b, path) == {} <==> PyEqual(a, b)
    decreases a
  {
    if a.Dict? && b.Dict? {
      forall k | k in a.fields && k in b.fields
        ensures Differences(a.fields[k], b.fields[k], KeyPath(path, k)) == {} <==> PyEqual(a.fields[k], b.fields[k])
      {
        NoDifferenceIffEqual(a.fields[k], b.fields[k], KeyPath(path, k));
      }
      DictDifferences(a, b, path);
    } else if a.List? && b.List? && |a.items| == |b.items| {
      forall i | 0 <= i < |a.items|
        ensures Differences(a.items[i], b.items[i], IndexPath(path, i)) == {} <==> PyEqual(a.items[i], b.items[i])
      {
        NoDifferenceIffEqual(a.items[i], b.items[i], IndexPath(path, i));
      }
      ListDifferences(a, b, path);
    }
  }

  lemma DictDifferences(a: Json, b: Json, path: string)
    requires a.Dict? && b.Dict?
    ensures Differences(a, b, path) == {} <==>
      a.fields.Keys == b.fields.Keys &&
      forall k :: k in a.fields && k in b.fields ==> Differences(a.fields[k], b.fields[k], KeyPath(path, k)) == {}
  {
    var all := Differences(a, b, path);
    forall k | k in a.fields.Keys + b.fields.Keys && (k !in a.fields || k !in b.fields)
      ensures KeyPath(path, k) in all {}
    forall k, p | k in a.fields && k in b.fields && p in Differences(a.fields[k], b.fields[k], KeyPath(path, k))
      ensures p in all {}
  }

  lemma ListDifferences(a: Json, b: Json, path: string)
    requires a.List? && b.List? && |a.items| == |b.items|
    ensures Differences(a, b, path) == {} <==>
      forall i :: 0 <= i < |a.items| ==> Differences(a.items[i], b.items[i], IndexPath(path, i)) == {}
  {
    var all := Differences(a, b, path);
    forall i, p | 0 <= i < |a.items| && p in Differences(a.items[i], b.items[i], IndexPath(path, i)) ensures p in all {}
  }

  // ---------------------------------------------------------------- profit paths

  /** What follows the last dot. */
  function LastPart(path: string): string {
    if path == "" || path[|path| - 1] == '.' then ""
    else LastPart(path[..|path| - 1]) + [path[|path| - 1]]
  }

  predicate IsProfitPath(path: string) {
    LastPart(path) == PROFIT
  }

  lemma {:induction false} LastPartOfKey(path: string, key: string)
    requires forall i :: 0 <= i < |key| ==> key[i] != '.'
    ensures LastPart(path + "." + key) == key && LastPart(key) == key
  {
    if key == "" {
      assert path + "." + key == path + ".";
    } else {
      var short, whole := key[..|key| - 1], path + "." + key;
      LastPartOfKey(path, short);
      assert key == short + [key[|key| - 1]];
      assert whole[|whole| - 1] == key[|key| - 1] != '.';
      assert whole[..|whole| - 1] == path + "." + short;
    }
  }

  /** Equal but for the profit totals, which are numbers in the second value. */
  ghost predicate SameExceptTotals(a: Json, b: Json)
    decreases a
  {
    if a.Dict? && b.Dict? then
      && (forall k :: k in a.fields && k != PROFIT ==> k in b.fields && SameExceptTotals(a.fields[k], b.fields[k]))
      && (forall k :: k in b.fields && k != PROFIT ==> k in a.fields)
      && (PROFIT in a.fields && PROFIT in b.fields ==> b.fields[PROFIT] == a.fields[PROFIT] || b.fields[PROFIT].Number?)
      && (PROFIT in a.fields ==> PROFIT in b.fields)
    else if a.List? && b.List? then
      |a.items| == |b.items| && forall i :: 0 <= i < |a.items| ==> SameExceptTotals(a.items[i], b.items[i])
    else a == b
  }

  lemma {:induction false} SameAsItself(a: Json)
    ensures SameExceptTotals(a, a) && PyEqual(a, a)
    decreases a
  {
    if a.Dict? {
      forall k | k in a.fields ensures SameExceptTotals(a.fields[k], a.fields[k]) && PyEqual(a.fields[k], a.fields[k]) {
        SameAsItself(a.fields[k]);
      }
    } else if a.List? {
      forall i | 0 <= i < |a.items| ensures SameExceptTotals(a.items[i], a.items[i])
        && PyEqual(a.items[i], a.items[i]) {
        SameAsItself(a.items[i]);
      }
    }
  }

  /** Such values differ only at paths of profit totals. */
  lemma {:induction false} OnlyProfitPathsDiffer(a: Json, b: Json, path: string)
    requires SameExceptTotals(a, b)
    ensures forall p :: p in Differences(a, b, path) ==> IsProfitPath(p)
    decreases a
  {
    if a.Dict? && b.Dict? {
      LastPartOfKey(path, PROFIT);
      forall k | k in a.fields && k in b.fields
        ensures forall p :: p in Differences(a.fields[k], b.fields[k], KeyPath(path, k)) ==> IsProfitPath(p)
      {
        if k != PROFIT {
          OnlyProfitPathsDiffer(a.fields[k], b.fields[k], KeyPath(path, k));
        } else if a.fields[k] == b.fields[k] {
          SameAsItself(a.fields[k]);
          NoDifferenceIffEqual(a.fields[k], b.fields[k], KeyPath(path, k));
        }
      }
    } else if a.List? && b.List? {
      forall i | 0 <= i < |a.items|
        ensures forall p :: p in Differences(a.items[i], b.items[i], IndexPath(path, i)) ==> IsProfitPath(p)
      {
        OnlyProfitPathsDiffer(a.items[i], b.items[i], IndexPath(path, i));
      }
    } else {
      SameAsItself(a);
    }
  }
}
