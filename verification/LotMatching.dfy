/** Which sales close which purchases. */
module LotMatching {
  import opened Common

  // Recorded purchases are matched with later sales of the same security, as in
  // scripts/analysis/analyze_intraday_movement_and_stagnant_positions.py. Times are instants on one
  // axis. A sale's unconsumed quantity is kept in an array that the matching loops lower in place.

  // ---------------------------------------------------------------- orders in time

  /** A purchase or a sale that can take part in the matching. */
  datatype Order = Order(symbol: Symbol, moment: int, price: real, quantity: real)

  predicate Ordered(orders: seq<Order>) {
    forall i, j :: 0 <= i < j < |orders| ==> orders[i].moment <= orders[j].moment
  }

  function Insert(sorted: seq<Order>, o: Order): (r: seq<Order>) {
    if sorted == [] || sorted[|sorted| - 1].moment <= o.moment then sorted + [o]
    else Insert(sorted[..|sorted| - 1], o) + [sorted[|sorted| - 1]]
  }

  /** The stable sort by time that the program takes from its library. */
  function SortByMoment(orders: seq<Order>): seq<Order> {
    if orders == [] then []
    else Insert(SortByMoment(orders[..|orders| - 1]), orders[|orders| - 1])
  }

  lemma {:induction false} InsertKeepsAll(sorted: seq<Order>, o: Order)
    ensures multiset(Insert(sorted, o)) == multiset(sorted) + multiset{o}
  {
    if !(sorted == [] || sorted[|sorted| - 1].moment <= o.moment) {
      var rest := sorted[..|sorted| - 1];
      var last := sorted[|sorted| - 1];
      InsertKeepsAll(rest, o);
      assert sorted == rest + [last];
      assert Insert(sorted, o) == Insert(rest, o) + [last];
    }
  }

  lemma {:induction false} InsertKeepsOrder(sorted: seq<Order>, o: Order)
    requires Ordered(sorted)
    ensures Ordered(Insert(sorted, o))
    ensures Insert(sorted, o) != []
    ensures Insert(sorted, o)[|Insert(sorted, o)| - 1].moment ==
            (if sorted == [] || sorted[|sorted| - 1].moment <= o.moment then o.moment else sorted[|sorted| - 1].moment)
  {
    if !(sorted == [] || sorted[|sorted| - 1].moment <= o.moment) {
      InsertKeepsOrder(sorted[..|sorted| - 1], o);
    }
  }

  lemma {:induction false} SortKeepsAll(orders: seq<Order>)
    ensures multiset(SortByMoment(orders)) == multiset(orders)
  {
    if orders != [] {
      var rest, last := orders[..|orders| - 1], orders[|orders| - 1];
      var sorted := SortByMoment(rest);
      SortKeepsAll(rest);
      InsertKeepsAll(sorted, last);
      assert SortByMoment(orders) == Insert(sorted, last);
      assert multiset(orders) == multiset(rest) + multiset{last} by {
        assert orders == rest + [last];
      }
    }
  }

  lemma {:induction false} SortOrders(orders: seq<Order>)
    ensures Ordered(SortByMoment(orders))
  {
    if orders != [] {
      SortOrders(orders[..|orders| - 1]);
      InsertKeepsOrder(SortByMoment(orders[..|orders| - 1]), orders[|orders| - 1]);
    }
  }

  ghost function AtMoment(moment: int): Order -> bool {
    (o: Order) => o.moment == moment
  }

  lemma {:induction false} InsertKeepsTies(sorted: seq<Order>, o: Order, moment: int)
    requires Ordered(sorted)
    ensures Filter(Insert(sorted, o), AtMoment(moment)) ==
            Filter(sorted, AtMoment(moment)) + if o.moment == moment then [o] else []
  {
    if sorted == [] || sorted[|sorted| - 1].moment <= o.moment {
      FilterTurn(sorted, o, AtMoment(moment));
    } else {
      var rest, last := sorted[..|sorted| - 1], sorted[|sorted| - 1];
      InsertKeepsTies(rest, o, moment);
      FilterTurn(Insert(rest, o), last, AtMoment(moment));
      if last.moment == moment {
        assert o.moment != moment;
      }
    }
  }

  /** Orders of the same moment stay in the order in which they were recorded. */
  lemma {:induction false} SortIsStable(orders: seq<Order>, moment: int)
    ensures Filter(SortByMoment(orders), AtMoment(moment)) == Filter(orders, AtMoment(moment))
  {
    if orders != [] {
      var rest, last := orders[..|orders| - 1], orders[|orders| - 1];
      SortIsStable(rest, moment);
      SortOrders(rest);
      InsertKeepsTies(SortByMoment(rest), last, moment);
    }
  }

  // ---------------------------------------------------------------- reading the orders

  /** A numeric field of a recorded order: missing, not convertible to a number, or a number. */
  datatype Field = Absent | Unreadable | Number(value: real)

  /** One recorded order. `moment` is absent when no timestamp can be read. */
  datatype Event = Event(
    side: string,
    accepted: bool,
    moment: Option<int>,
    symbol: Symbol,
    price: Field,
    delayedPrice: Field,
    quantity: Field)

  function FilledBuy(e: Event, production: bool): Option<Order> {
    if e.side != "2" || (production && !e.accepted) || e.moment.None? then None
    else
      var price := if e.price.Absent? then e.delayedPrice else e.price;
      if !price.Number? || !e.quantity.Number? then None
      else if price.value <= 0.0 || e.quantity.value <= 0.0 then None
      else Some(Order(e.symbol, e.moment.value, price.value, e.quantity.value))
  }

  function RecordedSell(e: Event): Option<Order> {
    if e.side != "1" || e.moment.None? || !e.price.Number? || !e.quantity.Number? then None
    else Some(Order(e.symbol, e.moment.value, e.price.value, e.quantity.value))
  }

  /** An order that takes the price and the quantity of its event. */
  ghost predicate Reads(e: Event, price: Field, o: Order) {
    && e.moment == Some(o.moment) && o.symbol == e.symbol
    && price == Number(o.price) && e.quantity == Number(o.quantity)
  }

  /** A purchase needs an accepted order in production, a time and a positive price and quantity; only where no price
      is recorded does the delayed one take its place. A sale needs a time, a price and a quantity. */
  lemma OrdersIff(e: Event, production: bool, o: Order)
    ensures FilledBuy(e, production) == Some(o) <==>
      && e.side == "2" && (production ==> e.accepted) && o.price > 0.0 && o.quantity > 0.0
      && Reads(e, if e.price == Absent then e.delayedPrice else e.price, o)
    ensures RecordedSell(e) == Some(o) <==> e.side == "1" && Reads(e, e.price, o)
  {}

  function FilledBuys(events: seq<Event>, production: bool): seq<Order> {
    if events == [] then []
    else
      var last := FilledBuy(events[|events| - 1], production);
      FilledBuys(events[..|events| - 1], production) + (if last.Some? then [last.value] else [])
  }

  function RecordedSells(events: seq<Event>): seq<Order> {
    if events == [] then []
    else
      var last := RecordedSell(events[|events| - 1]);
      RecordedSells(events[..|events| - 1]) + (if last.Some? then [last.value] else [])
  }

  function Buys(events: seq<Event>, production: bool): seq<Order> {
    SortByMoment(FilledBuys(events, production))
  }

  function Sells(events: seq<Event>): seq<Order> {
    SortByMoment(RecordedSells(events))
  }

  lemma {:induction false} BuysArePositive(events: seq<Event>, production: bool)
    ensures forall b :: b in Buys(events, production) ==> b.quantity > 0.0 && b.price > 0.0
  {
    FilledBuysArePositive(events, production);
    SortKeepsAll(FilledBuys(events, production));
    forall b | b in Buys(events, production) ensures b in FilledBuys(events, production) {
      assert b in multiset(Buys(events, production));
    }
  }

  lemma FilledBuysArePositive(events: seq<Event>, production: bool)
    ensures forall b :: b in FilledBuys(events, production) ==> b.quantity > 0.0 && b.price > 0.0
  {}

  // ---------------------------------------------------------------- one purchase

  /** A part of a sale that closes a part of a purchase. */
  datatype Exit = Exit(moment: int, price: real, quantity: real)

  /** A purchase with the sales found for it. */
  datatype Position = Position(
    order: Order,
    exits: seq<Exit>,
    exitTime: Option<int>,
    profit: Option<real>,
    unmatched: real)

  /** A sale may close a purchase of the same security made strictly before it. */
  predicate Eligible(b: Order, s: Order) {
    s.symbol == b.symbol && b.moment < s.moment
  }

  /** What is still open of `b` after the first `j` sales have been offered to it. */
  function Open(b: Order, sells: seq<Order>, rem: seq<real>, j: nat): real
    requires j <= |sells| == |rem|
    decreases j, 0
  {
    if j == 0 then b.quantity
    else Open(b, sells, rem, j - 1) - Taken(b, sells, rem, j - 1)
  }

  /** What `b` takes of sale `j`, when `rem` is left of the sales. */
  function Taken(b: Order, sells: seq<Order>, rem: seq<real>, j: nat): real
    requires j < |sells| == |rem|
    decreases j, 1
  {
    var open := Open(b, sells, rem, j);
    if open > 0.0 && Eligible(b, sells[j]) && rem[j] > 0.0 then Min(open, rem[j]) else 0.0
  }

  function TakenRow(b: Order, sells: seq<Order>, rem: seq<real>): seq<real>
    requires |sells| == |rem|
  {
    seq(|sells|, j requires 0 <= j < |sells| => Taken(b, sells, rem, j))
  }

  lemma {:induction false} OpenNeverNegative(b: Order, sells: seq<Order>, rem: seq<real>, i: nat, j: nat)
    requires i <= j <= |sells| == |rem|
    requires b.quantity > 0.0
    ensures 0.0 <= Open(b, sells, rem, j) <= Open(b, sells, rem, i)
    decreases j
  {
    if j > 0 {
      if i < j {
        OpenNeverNegative(b, sells, rem, i, j - 1);
      } else {
        OpenNeverNegative(b, sells, rem, i - 1, j - 1);
      }
    }
  }

  // ---------------------------------------------------------------- vectors of quantities

  function Quantities(orders: seq<Order>): seq<real> {
    seq(|orders|, i requires 0 <= i < |orders| => orders[i].quantity)
  }

  function Minus(a: seq<real>, b: seq<real>): seq<real>
    requires |a| == |b|
  {
    seq(|a|, i requires 0 <= i < |a| => a[i] - b[i])
  }

  function Plus(a: seq<real>, b: seq<real>): seq<real>
    requires |a| == |b|
  {
    seq(|a|, i requires 0 <= i < |a| => a[i] + b[i])
  }

  /** The sum of the entries that `mask` selects. */
  function SumWhere(mask: seq<bool>, a: seq<real>): real
    requires |mask| == |a|
  {
    if a == [] then 0.0
    else SumWhere(mask[..|a| - 1], a[..|a| - 1]) + (if mask[|a| - 1] then a[|a| - 1] else 0.0)
  }

  predicate Rectangular(rows: seq<seq<real>>, width: nat) {
    forall i :: 0 <= i < |rows| ==> |rows[i]| == width
  }

  /** The grand total of a table of quantities. */
  function Total(rows: seq<seq<real>>): real {
    if rows == [] then 0.0 else Total(rows[..|rows| - 1]) + Sum(rows[|rows| - 1])
  }

  /** The total of each column. */
  function Columns(rows: seq<seq<real>>, width: nat): (c: seq<real>)
    requires Rectangular(rows, width)
    ensures |c| == width
  {
    if rows == [] then seq(width, _ => 0.0)
    else Plus(Columns(rows[..|rows| - 1], width), rows[|rows| - 1])
  }

  function RowTotals(rows: seq<seq<real>>): seq<real> {
    seq(|rows|, i requires 0 <= i < |rows| => Sum(rows[i]))
  }

  // ---------------------------------------------------------------- the greedy matching

  /** What is left of the sales after the first `n` purchases have been served. */
  function Remaining(buys: seq<Order>, sells: seq<Order>, n: nat): (rem: seq<real>)
    requires n <= |buys|
    ensures |rem| == |sells|
  {
    if n == 0 then Quantities(sells)
    else
      var rem := Remaining(buys, sells, n - 1);
      Minus(rem, TakenRow(buys[n - 1], sells, rem))
  }

  /** Entry `[i][j]` is what purchase `i` takes of sale `j`. */
  function Matching(buys: seq<Order>, sells: seq<Order>, n: nat): (rows: seq<seq<real>>)
    requires n <= |buys|
    ensures |rows| == n && Rectangular(rows, |sells|)
  {
    if n == 0 then []
    else Matching(buys, sells, n - 1) + [TakenRow(buys[n - 1], sells, Remaining(buys, sells, n - 1))]
  }

  lemma {:induction false} MatchingRow(buys: seq<Order>, sells: seq<Order>, n: nat, i: nat)
    requires i < n <= |buys|
    ensures Matching(buys, sells, n)[i] == TakenRow(buys[i], sells, Remaining(buys, sells, i))
  {
    if i < n - 1 {
      MatchingRow(buys, sells, n - 1, i);
    }
  }

  predicate AllPositive(orders: seq<Order>) {
    forall i :: 0 <= i < |orders| ==> orders[i].quantity > 0.0
  }

  /** Sales are only ever lowered, never below zero, and a used-up sale stays as it is. */
  lemma {:induction false} RemainingFalls(buys: seq<Order>, sells: seq<Order>, i: nat, n: nat, j: nat)
    requires i <= n <= |buys| && j < |sells| && AllPositive(buys)
    ensures Remaining(buys, sells, n)[j] <= Remaining(buys, sells, i)[j]
    ensures Remaining(buys, sells, i)[j] <= 0.0 ==> Remaining(buys, sells, n)[j] == Remaining(buys, sells, i)[j]
    ensures Remaining(buys, sells, i)[j] >= 0.0 ==> Remaining(buys, sells, n)[j] >= 0.0
    decreases n
  {
    if i < n {
      RemainingFalls(buys, sells, i, n - 1, j);
      var rem := Remaining(buys, sells, n - 1);
      OpenNeverNegative(buys[n - 1], sells, rem, 0, j);
    }
  }

  lemma {:induction false} SumPrefix(a: seq<real>, n: nat)
    requires n < |a|
    ensures Sum(a[..n + 1]) == Sum(a[..n]) + a[n]
  {
    assert a[..n + 1][..n] == a[..n];
  }

  /** What is open of a purchase is its quantity less what it has taken. */
  lemma {:induction false} OpenIsBalance(b: Order, sells: seq<Order>, rem: seq<real>, j: nat)
    requires j <= |sells| == |rem|
    ensures Open(b, sells, rem, j) == b.quantity - Sum(TakenRow(b, sells, rem)[..j])
  {
    if j > 0 {
      OpenIsBalance(b, sells, rem, j - 1);
      SumPrefix(TakenRow(b, sells, rem), j - 1);
    }
  }

  /** Quantity is conserved on the sale side: the drop of a sale is what all purchases took of it. */
  lemma {:induction false} SalesConserved(buys: seq<Order>, sells: seq<Order>, n: nat, j: nat)
    requires n <= |buys| && j < |sells|
    ensures sells[j].quantity - Remaining(buys, sells, n)[j] == Columns(Matching(buys, sells, n), |sells|)[j]
  {
    if n > 0 {
      SalesConserved(buys, sells, n - 1, j);
      assert Matching(buys, sells, n)[..n - 1] == Matching(buys, sells, n - 1);
    }
  }

  /** Quantity is conserved on the purchase side, and no purchase is overfilled. */
  lemma {:induction false} PurchasesConserved(buys: seq<Order>, sells: seq<Order>, i: nat)
    requires i < |buys| && AllPositive(buys)
    ensures
      var row := Matching(buys, sells, |buys|)[i];
      var open := Open(buys[i], sells, Remaining(buys, sells, i), |sells|);
      && open == buys[i].quantity - Sum(row)
      && 0.0 <= open <= buys[i].quantity
  {
    var rem := Remaining(buys, sells, i);
    MatchingRow(buys, sells, |buys|, i);
    OpenIsBalance(buys[i], sells, rem, |sells|);
    OpenNeverNegative(buys[i], sells, rem, 0, |sells|);
    var row := TakenRow(buys[i], sells, rem);
    assert row[..|sells|] == row;
  }

  // ---------------------------------------------------------------- feasible matchings

  /** A table of quantities that respects the purchases, the sales and their order in time. */
  predicate Feasible(rows: seq<seq<real>>, buys: seq<Order>, sells: seq<Order>) {
    && |rows| == |buys|
    && Rectangular(rows, |sells|)
    && (forall i, j :: 0 <= i < |buys| && 0 <= j < |sells| ==> rows[i][j] >= 0.0)
    && (forall i, j :: 0 <= i < |buys| && 0 <= j < |sells| && rows[i][j] > 0.0 ==>
          sells[j].symbol == buys[i].symbol && sells[j].moment > buys[i].moment)
    && (forall i :: 0 <= i < |buys| ==> Sum(rows[i]) <= buys[i].quantity)
    && (forall j :: 0 <= j < |sells| ==> Columns(rows, |sells|)[j] <= Max(sells[j].quantity, 0.0))
  }

  lemma {:induction false} MatchingIsFeasible(buys: seq<Order>, sells: seq<Order>)
    requires AllPositive(buys)
    ensures Feasible(Matching(buys, sells, |buys|), buys, sells)
  {
    var rows := Matching(buys, sells, |buys|);
    forall i | 0 <= i < |buys|
      ensures Sum(rows[i]) <= buys[i].quantity
      ensures forall j :: 0 <= j < |sells| ==> rows[i][j] >= 0.0 && (rows[i][j] > 0.0 ==> Eligible(buys[i], sells[j]))
    {
      PurchasesConserved(buys, sells, i);
      MatchingRow(buys, sells, |buys|, i);
    }
    forall j | 0 <= j < |sells| ensures Columns(rows, |sells|)[j] <= Max(sells[j].quantity, 0.0) {
      SalesConserved(buys, sells, |buys|, j);
      RemainingFalls(buys, sells, 0, |buys|, j);
    }
  }

  /** A purchase that meets an eligible sale which is never used up is filled by then. */
  lemma {:induction false} FilledBySurvivingSale(buys: seq<Order>, sells: seq<Order>, i: nat, j: nat)
    requires i < |buys| && j < |sells| && AllPositive(buys)
    requires Eligible(buys[i], sells[j]) && Remaining(buys, sells, |buys|)[j] > 0.0
    ensures Open(buys[i], sells, Remaining(buys, sells, i), j + 1) <= 0.0
  {
    RemainingFalls(buys, sells, i + 1, |buys|, j);
  }

  /** No purchase is left open beside a later sale of the same security that is not used up,
      and none has reached past it. */
  lemma {:induction false} NoMissedSale(buys: seq<Order>, sells: seq<Order>, i: nat, j: nat)
    requires i < |buys| && j < |sells| && AllPositive(buys)
    requires sells[j].symbol == buys[i].symbol && sells[j].moment > buys[i].moment
    requires Remaining(buys, sells, |buys|)[j] > 0.0
    ensures Sum(Matching(buys, sells, |buys|)[i]) == buys[i].quantity
    ensures forall k :: j < k < |sells| ==> Matching(buys, sells, |buys|)[i][k] == 0.0
  {
    var rem := Remaining(buys, sells, i);
    FilledBySurvivingSale(buys, sells, i, j);
    FilledTakesNoMore(buys[i], sells, rem, j + 1);
    OpenNeverNegative(buys[i], sells, rem, 0, |sells|);
    MatchingRow(buys, sells, |buys|, i);
    RowBalance(buys[i], sells, rem);
  }

  // ---------------------------------------------------------------- optimality

  // The proof is by duality. Mark a purchase when some eligible sale is not used up, and a
  // sale when it and every later sale of its security are used up. Every eligible pair has a
  // marked end, so no feasible table exceeds the quantity of the marked orders; the greedy
  // table fills every marked order and never uses a pair with both ends marked.

  ghost predicate BuyMarked(b: Order, sells: seq<Order>, rem: seq<real>)
    requires |sells| == |rem|
  {
    exists j :: 0 <= j < |sells| && Eligible(b, sells[j]) && rem[j] > 0.0
  }

  ghost predicate SellMarked(sells: seq<Order>, rem: seq<real>, j: nat)
    requires j < |sells| == |rem|
  {
    forall k :: j <= k < |sells| && sells[k].symbol == sells[j].symbol ==> rem[k] <= 0.0
  }

  ghost function SellMarks(sells: seq<Order>, rem: seq<real>): seq<bool>
    requires |sells| == |rem|
  {
    seq(|sells|, j requires 0 <= j < |sells| => SellMarked(sells, rem, j))
  }

  ghost function BuyMarks(buys: seq<Order>, sells: seq<Order>, rem: seq<real>): seq<bool>
    requires |sells| == |rem|
  {
    seq(|buys|, i requires 0 <= i < |buys| => BuyMarked(buys[i], sells, rem))
  }

  lemma {:induction false} SumWherePlus(mask: seq<bool>, a: seq<real>, b: seq<real>)
    requires |mask| == |a| == |b|
    ensures SumWhere(mask, Plus(a, b)) == SumWhere(mask, a) + SumWhere(mask, b)
  {
    if a != [] {
      var n := |a| - 1;
      assert Plus(a, b)[..n] == Plus(a[..n], b[..n]);
      SumWherePlus(mask[..n], a[..n], b[..n]);
    }
  }

  lemma {:induction false} SumWhereBound(mask: seq<bool>, a: seq<real>, b: seq<real>)
    requires |mask| == |a| == |b|
    requires forall i :: 0 <= i < |a| && mask[i] ==> a[i] <= b[i]
    ensures SumWhere(mask, a) <= SumWhere(mask, b)
  {
    if a != [] {
      var n := |a| - 1;
      SumWhereBound(mask[..n], a[..n], b[..n]);
    }
  }

  /** A row is bounded by its marked entries, plus the whole row when the row is marked;
      the bound is exact when no entry is marked twice. */
  lemma {:induction false} RowBound(row: seq<real>, marked: bool, mask: seq<bool>)
    requires |row| == |mask|
    requires forall j :: 0 <= j < |row| ==> row[j] >= 0.0
    requires forall j :: 0 <= j < |row| && row[j] > 0.0 ==> marked || mask[j]
    ensures Sum(row) <= (if marked then Sum(row) else 0.0) + SumWhere(mask, row)
    ensures (forall j :: 0 <= j < |row| && row[j] > 0.0 ==> !(marked && mask[j])) ==>
              Sum(row) == (if marked then Sum(row) else 0.0) + SumWhere(mask, row)
  {
    if row != [] {
      var n := |row| - 1;
      RowBound(row[..n], marked, mask[..n]);
      if forall j :: 0 <= j < |row| && row[j] > 0.0 ==> !(marked && mask[j]) {
        assert forall j :: 0 <= j < n && row[..n][j] > 0.0 ==> row[j] > 0.0;
      }
    }
  }

  /** The same for a whole table. */
  lemma {:induction false} TableBound(rows: seq<seq<real>>, y: seq<bool>, z: seq<bool>)
    requires |rows| == |y| && Rectangular(rows, |z|)
    requires forall i, j :: 0 <= i < |y| && 0 <= j < |z| ==> rows[i][j] >= 0.0
    requires forall i, j :: 0 <= i < |y| && 0 <= j < |z| && rows[i][j] > 0.0 ==> y[i] || z[j]
    ensures Total(rows) <= SumWhere(y, RowTotals(rows)) + SumWhere(z, Columns(rows, |z|))
    ensures (forall i, j :: 0 <= i < |y| && 0 <= j < |z| && rows[i][j] > 0.0 ==> !(y[i] && z[j])) ==>
              Total(rows) == SumWhere(y, RowTotals(rows)) + SumWhere(z, Columns(rows, |z|))
  {
    if rows == [] {
      SumWhereZero(z);
    } else {
      var n := |rows| - 1;
      var rest, totals, columns := rows[..n], RowTotals(rows), Columns(rows[..n], |z|);
      TableBound(rest, y[..n], z);
      RowBound(rows[n], y[n], z);
      SumWherePlus(z, columns, rows[n]);
      assert totals[..n] == RowTotals(rest);
      assert SumWhere(y, totals) == SumWhere(y[..n], RowTotals(rest)) + (if y[n] then Sum(rows[n]) else 0.0);
      assert SumWhere(z, Columns(rows, |z|)) == SumWhere(z, columns) + SumWhere(z, rows[n]);
      assert Total(rows) == Total(rest) + Sum(rows[n]);
    }
  }

  lemma {:induction false} SumWhereZero(z: seq<bool>)
    ensures SumWhere(z, seq(|z|, _ => 0.0)) == 0.0
  {
    if z != [] {
      var n := |z| - 1;
      assert seq(|z|, _ => 0.0)[..n] == seq(n, _ => 0.0);
      SumWhereZero(z[..n]);
    }
  }

  /** The quantity of the marked orders, an upper bound for every feasible table. */
  ghost function DualBound(buys: seq<Order>, sells: seq<Order>): real {
    var rem := Remaining(buys, sells, |buys|);
    SumWhere(BuyMarks(buys, sells, rem), Quantities(buys)) +
    SumWhere(SellMarks(sells, rem), Capacities(sells))
  }

  /** If a sale is not marked, a later one of its security is not used up, and so an eligible purchase is marked. */
  lemma OneEndIsMarked(b: Order, sells: seq<Order>, rem: seq<real>, j: nat)
    requires j < |sells| == |rem| && Ordered(sells) && Eligible(b, sells[j])
    ensures BuyMarked(b, sells, rem) || SellMarked(sells, rem, j)
  {}

  lemma {:induction false} FeasibleWithinBound(rows: seq<seq<real>>, buys: seq<Order>, sells: seq<Order>)
    requires Ordered(sells) && Feasible(rows, buys, sells)
    ensures Total(rows) <= DualBound(buys, sells)
  {
    var rem := Remaining(buys, sells, |buys|);
    var y, z := BuyMarks(buys, sells, rem), SellMarks(sells, rem);
    forall i, j | 0 <= i < |buys| && 0 <= j < |sells| && rows[i][j] > 0.0 ensures y[i] || z[j] {
      OneEndIsMarked(buys[i], sells, rem, j);
    }
    TableBound(rows, y, z);
    SumWhereBound(y, RowTotals(rows), Quantities(buys));
    SumWhereBound(z, Columns(rows, |sells|), Capacities(sells));
  }

  ghost function Capacities(sells: seq<Order>): seq<real> {
    seq(|sells|, j requires 0 <= j < |sells| => Max(sells[j].quantity, 0.0))
  }

  lemma {:induction false} MarkedRowsAreFull(buys: seq<Order>, sells: seq<Order>)
    requires AllPositive(buys)
    ensures
      var y := BuyMarks(buys, sells, Remaining(buys, sells, |buys|));
      SumWhere(y, RowTotals(Matching(buys, sells, |buys|))) == SumWhere(y, Quantities(buys))
  {
    var rows, rem := Matching(buys, sells, |buys|), Remaining(buys, sells, |buys|);
    var y := BuyMarks(buys, sells, rem);
    forall i | 0 <= i < |buys| && y[i] ensures RowTotals(rows)[i] == Quantities(buys)[i] {
      var j :| 0 <= j < |sells| && Eligible(buys[i], sells[j]) && rem[j] > 0.0;
      NoMissedSale(buys, sells, i, j);
    }
    SumWhereBound(y, RowTotals(rows), Quantities(buys));
    SumWhereBound(y, Quantities(buys), RowTotals(rows));
  }

  lemma {:induction false} MarkedColumnsAreFull(buys: seq<Order>, sells: seq<Order>)
    requires AllPositive(buys)
    ensures
      var z := SellMarks(sells, Remaining(buys, sells, |buys|));
      SumWhere(z, Columns(Matching(buys, sells, |buys|), |sells|)) == SumWhere(z, Capacities(sells))
  {
    var rows, rem := Matching(buys, sells, |buys|), Remaining(buys, sells, |buys|);
    var z := SellMarks(sells, rem);
    forall j | 0 <= j < |sells| && z[j] ensures Columns(rows, |sells|)[j] == Capacities(sells)[j] {
      assert SellMarked(sells, rem, j);
      SalesConserved(buys, sells, |buys|, j);
      RemainingFalls(buys, sells, 0, |buys|, j);
    }
    SumWhereBound(z, Columns(rows, |sells|), Capacities(sells));
    SumWhereBound(z, Capacities(sells), Columns(rows, |sells|));
  }

  lemma {:induction false} GreedyReachesBound(buys: seq<Order>, sells: seq<Order>)
    requires Ordered(sells) && AllPositive(buys)
    ensures Total(Matching(buys, sells, |buys|)) == DualBound(buys, sells)
  {
    var rows, rem := Matching(buys, sells, |buys|), Remaining(buys, sells, |buys|);
    var y, z := BuyMarks(buys, sells, rem), SellMarks(sells, rem);
    MatchingIsFeasible(buys, sells);
    forall i, j | 0 <= i < |buys| && 0 <= j < |sells| && rows[i][j] > 0.0
      ensures y[i] || z[j]
      ensures !(y[i] && z[j])
    {
      assert Eligible(buys[i], sells[j]);
      OneEndIsMarked(buys[i], sells, rem, j);
      NotMarkedTwice(buys, sells, i, j);
    }
    TableBound(rows, y, z);
    MarkedRowsAreFull(buys, sells);
    MarkedColumnsAreFull(buys, sells);
  }

  lemma {:induction false} NotMarkedTwice(buys: seq<Order>, sells: seq<Order>, i: nat, j: nat)
    requires i < |buys| && j < |sells| && AllPositive(buys)
    requires Matching(buys, sells, |buys|)[i][j] > 0.0
    ensures var rem := Remaining(buys, sells, |buys|);
            !(BuyMarked(buys[i], sells, rem) && SellMarked(sells, rem, j))
  {
    var rem := Remaining(buys, sells, |buys|);
    if BuyMarked(buys[i], sells, rem) && SellMarked(sells, rem, j) {
      MatchingIsFeasible(buys, sells);
      var k :| 0 <= k < |sells| && Eligible(buys[i], sells[k]) && rem[k] > 0.0;
      NoMissedSale(buys, sells, i, k);
    }
  }

  // ---------------------------------------------------------------- the program's loops

  /** The exits that the first `j` entries of a row describe. */
  function Fills(sells: seq<Order>, row: seq<real>, j: nat): seq<Exit>
    requires j <= |sells| == |row|
  {
    if j == 0 then []
    else Fills(sells, row, j - 1) +
         (if row[j - 1] > 0.0 then [Exit(sells[j - 1].moment, sells[j - 1].price, row[j - 1])] else [])
  }

  function Profit(entry: real, exits: seq<Exit>): real {
    if exits == [] then 0.0
    else Profit(entry, exits[..|exits| - 1]) + (exits[|exits| - 1].price - entry) * exits[|exits| - 1].quantity
  }

  method ProfitOf(entry: real, exits: seq<Exit>) returns (profit: real)
    ensures profit == Profit(entry, exits)
  {
    profit := 0.0;
    for k := 0 to |exits|
      invariant profit == Profit(entry, exits[..k])
    {
      profit := profit + (exits[k].price - entry) * exits[k].quantity;
      assert exits[..k + 1][..k] == exits[..k];
    }
    assert exits[..|exits|] == exits;
  }

  lemma RowBalance(b: Order, sells: seq<Order>, rem: seq<real>)
    requires |sells| == |rem|
    ensures Open(b, sells, rem, |sells|) == b.quantity - Sum(TakenRow(b, sells, rem))
  {
    OpenIsBalance(b, sells, rem, |sells|);
    var row := TakenRow(b, sells, rem);
    assert row[..|sells|] == row;
  }

  /** Offers the sales to one purchase, lowering what is left of them in place. */
  method MatchOne(buy: Order, sells: seq<Order>, remaining: array<real>) returns (exits: seq<Exit>, open: real)
    requires remaining.Length == |sells| && buy.quantity > 0.0
    modifies remaining
    ensures remaining[..] == Minus(old(remaining[..]), TakenRow(buy, sells, old(remaining[..])))
    ensures exits == Fills(sells, TakenRow(buy, sells, old(remaining[..])), |sells|)
    ensures open == buy.quantity - Sum(TakenRow(buy, sells, old(remaining[..])))
  {
    ghost var rem := remaining[..];
    ghost var row := TakenRow(buy, sells, rem);
    open := buy.quantity;
    exits := [];
    var j := 0;
    while j < |sells| && open > 0.0
      invariant 0 <= j <= |sells|
      invariant forall k :: 0 <= k < j ==> remaining[k] == rem[k] - row[k]
      invariant forall k :: j <= k < |sells| ==> remaining[k] == rem[k]
      invariant open == Open(buy, sells, rem, j)
      invariant exits == Fills(sells, row, j)
    {
      var sell := sells[j];
      assert row[j] == Taken(buy, sells, rem, j);
      if Eligible(buy, sell) && remaining[j] > 0.0 {
        var matched := Min(open, remaining[j]);
        exits := exits + [Exit(sell.moment, sell.price, matched)];
        remaining[j] := remaining[j] - matched;
        open := open - matched;
      }
      j := j + 1;
    }
    RowIsTaken(buy, sells, rem, j, remaining[..]);
  }

  /** What the loop has taken when it stops is the whole row. */
  lemma RowIsTaken(b: Order, sells: seq<Order>, rem: seq<real>, j: nat, left: seq<real>)
    requires j <= |sells| == |rem| == |left| && b.quantity > 0.0
    requires j == |sells| || Open(b, sells, rem, j) <= 0.0
    requires
      var row := TakenRow(b, sells, rem);
      (forall k :: 0 <= k < j ==> left[k] == rem[k] - row[k]) && forall k :: j <= k < |sells| ==> left[k] == rem[k]
    ensures left == Minus(rem, TakenRow(b, sells, rem))
    ensures Fills(sells, TakenRow(b, sells, rem), j) == Fills(sells, TakenRow(b, sells, rem), |sells|)
    ensures Open(b, sells, rem, j) == b.quantity - Sum(TakenRow(b, sells, rem))
  {
    if j < |sells| {
      FilledTakesNoMore(b, sells, rem, j);
    }
    RowBalance(b, sells, rem);
  }

  lemma {:induction false} FilledTakesNoMore(b: Order, sells: seq<Order>, rem: seq<real>, j: nat)
    requires j <= |sells| == |rem| && b.quantity > 0.0
    requires Open(b, sells, rem, j) <= 0.0
    ensures forall k :: j <= k < |sells| ==> TakenRow(b, sells, rem)[k] == 0.0
    ensures Open(b, sells, rem, |sells|) == Open(b, sells, rem, j)
    ensures Fills(sells, TakenRow(b, sells, rem), |sells|) == Fills(sells, TakenRow(b, sells, rem), j)
    decreases |sells| - j
  {
    if j < |sells| {
      FilledTakesNoMore(b, sells, rem, j + 1);
    }
  }

  predicate AllPriced(exits: seq<Exit>) {
    forall e :: e in exits ==> e.price > 0.0
  }

  function Settled(buy: Order, exits: seq<Exit>, open: real): Position {
    var closed := exits != [] && open <= 0.0;
    Position(
      buy, exits,
      if closed then Some(exits[|exits| - 1].moment) else None,
      if closed && AllPriced(exits) then Some(Profit(buy.price, exits)) else None,
      open)
  }

  /** Purchase `i` with the exits of its row of the matching. */
  function Outcome(buys: seq<Order>, sells: seq<Order>, i: nat): Position
    requires i < |buys|
  {
    var row := TakenRow(buys[i], sells, Remaining(buys, sells, i));
    Settled(buys[i], Fills(sells, row, |sells|), buys[i].quantity - Sum(row))
  }

  method Settle(buy: Order, exits: seq<Exit>, open: real) returns (position: Position)
    ensures position == Settled(buy, exits, open)
  {
    var exitTime, profit := None, None;
    if exits != [] && open <= 0.0 {
      exitTime := Some(exits[|exits| - 1].moment);
      if AllPriced(exits) {
        var total := ProfitOf(buy.price, exits);
        profit := Some(total);
      }
    }
    position := Position(buy, exits, exitTime, profit, open);
  }

  method ServePurchase(buys: seq<Order>, sells: seq<Order>, i: nat, remaining: array<real>) returns (position: Position)
    requires i < |buys| && buys[i].quantity > 0.0
    requires remaining[..] == Remaining(buys, sells, i)
    modifies remaining
    ensures remaining[..] == Remaining(buys, sells, i + 1)
    ensures position == Outcome(buys, sells, i)
  {
    var exits, open := MatchOne(buys[i], sells, remaining);
    position := Settle(buys[i], exits, open);
  }

  ghost predicate AreOutcomes(buys: seq<Order>, sells: seq<Order>, positions: seq<Position>) {
    |positions| <= |buys| && forall k :: 0 <= k < |positions| ==> positions[k] == Outcome(buys, sells, k)
  }

  lemma OneMoreOutcome(buys: seq<Order>, sells: seq<Order>, positions: seq<Position>, position: Position)
    requires AreOutcomes(buys, sells, positions) && |positions| < |buys|
    requires position == Outcome(buys, sells, |positions|)
    ensures AreOutcomes(buys, sells, positions + [position])
  {}

  method ServeAll(buys: seq<Order>, sells: seq<Order>) returns (positions: seq<Position>)
    requires AllPositive(buys)
    ensures |positions| == |buys|
    ensures forall i :: 0 <= i < |positions| ==> positions[i] == Outcome(buys, sells, i)
  {
    var remaining := new real[|sells|](i requires 0 <= i < |sells| => sells[i].quantity);
    assert remaining[..] == Quantities(sells);
    positions := [];
    for i := 0 to |buys|
      invariant remaining[..] == Remaining(buys, sells, i)
      invariant |positions| == i && AreOutcomes(buys, sells, positions)
    {
      var position := ServePurchase(buys, sells, i, remaining);
      OneMoreOutcome(buys, sells, positions, position);
      positions := positions + [position];
    }
  }

  /** Every purchase receives the exits of its row of the matching. */
  method TradePositions(events: seq<Event>, production: bool) returns (positions: seq<Position>)
    ensures |positions| == |Buys(events, production)|
    ensures forall i :: 0 <= i < |positions| ==> positions[i] == Outcome(Buys(events, production), Sells(events), i)
    ensures forall i :: 0 <= i < |positions| ==> Realized(positions[i])
  {
    var buys, sells := Buys(events, production), Sells(events);
    BuysArePositive(events, production);
    SortOrders(RecordedSells(events));
    positions := ServeAll(buys, sells);
    forall i | 0 <= i < |positions| ensures Realized(positions[i]) {
      OutcomeIsRealized(buys, sells, i);
    }
  }

  // ---------------------------------------------------------------- what the positions mean

  /** What some exits bring. */
  function Proceeds(exits: seq<Exit>): real {
    if exits == [] then 0.0
    else Proceeds(exits[..|exits| - 1]) + exits[|exits| - 1].price * exits[|exits| - 1].quantity
  }

  lemma GainOfExit(entry: real, price: real, quantity: real)
    ensures (price - entry) * quantity == price * quantity - entry * quantity
  {}

  lemma CostAddsUp(entry: real, before: real, quantity: real)
    ensures entry * (before + quantity) == entry * before + entry * quantity
  {}

  lemma {:induction false} ProfitIsProceedsLessCost(entry: real, exits: seq<Exit>)
    ensures Profit(entry, exits) == Proceeds(exits) - entry * ExitQuantity(exits)
  {
    if exits != [] {
      var before, last := exits[..|exits| - 1], exits[|exits| - 1];
      ProfitIsProceedsLessCost(entry, before);
      GainOfExit(entry, last.price, last.quantity);
      CostAddsUp(entry, ExitQuantity(before), last.quantity);
    }
  }

  lemma {:induction false} ProceedsExceed(entry: real, exits: seq<Exit>)
    requires exits != [] && forall e :: e in exits ==> e.price > entry && e.quantity > 0.0
    ensures Proceeds(exits) > entry * ExitQuantity(exits)
  {
    var before, last := exits[..|exits| - 1], exits[|exits| - 1];
    assert last in exits;
    assert forall e :: e in before ==> e in exits;
    var bought, brought := entry * last.quantity, last.price * last.quantity;
    assert bought < brought by {
      ScaleIsStrict(entry, last.price, last.quantity);
    }
    CostAddsUp(entry, ExitQuantity(before), last.quantity);
    if before == [] {
      NothingCosts(entry);
    } else {
      ProceedsExceed(entry, before);
    }
  }

  lemma NothingCosts(entry: real)
    ensures entry * 0.0 == 0.0
  {}

  /** A matched purchase has realized what its exits brought less what all of it cost; exits above the entry price
      are a gain. */
  ghost predicate Realized(p: Position) {
    && (p.profit.Some? ==> p.profit.value == Proceeds(p.exits) - p.order.price * p.order.quantity)
    && (p.profit.Some? && (forall e :: e in p.exits ==> e.price > p.order.price) ==> p.profit.value > 0.0)
  }

  lemma SettledIsRealized(b: Order, exits: seq<Exit>, open: real)
    requires ExitQuantity(exits) + open == b.quantity && open >= 0.0
    requires forall e :: e in exits ==> e.quantity > 0.0
    ensures Realized(Settled(b, exits, open))
  {
    if exits != [] && open <= 0.0 {
      ProfitIsProceedsLessCost(b.price, exits);
      assert ExitQuantity(exits) == b.quantity;
      if forall e :: e in exits ==> e.price > b.price {
        ProceedsExceed(b.price, exits);
      }
    }
  }

  lemma {:induction false} OutcomeIsRealized(buys: seq<Order>, sells: seq<Order>, i: nat)
    requires i < |buys| && AllPositive(buys) && Ordered(sells)
    ensures Realized(Outcome(buys, sells, i))
  {
    var p := Outcome(buys, sells, i);
    OutcomeConserves(buys, sells, i);
    SettledIsRealized(buys[i], p.exits, p.unmatched);
  }

  /** An exit at the time and price of a sale. */
  function ExitAt(s: Order, quantity: real): Exit {
    Exit(s.moment, s.price, quantity)
  }

  /** The exits are exactly the positive entries of a row, each at the time and price of its sale. */
  lemma {:induction false} FillsAreEntries(sells: seq<Order>, row: seq<real>, j: nat, e: Exit)
    requires j <= |sells| == |row|
    ensures e in Fills(sells, row, j) <==>
            exists k :: 0 <= k < j && row[k] > 0.0 && e == ExitAt(sells[k], row[k])
  {
    if j > 0 {
      FillsAreEntries(sells, row, j - 1, e);
      assert e == ExitAt(sells[j - 1], row[j - 1]) || e != ExitAt(sells[j - 1], row[j - 1]);
    }
  }

  /** A position's exits are what its purchase takes of the sales in the matching. */
  lemma {:induction false} ExitsAreMatched(buys: seq<Order>, sells: seq<Order>, i: nat, e: Exit)
    requires i < |buys|
    ensures
      var row := Matching(buys, sells, |buys|)[i];
      e in Outcome(buys, sells, i).exits <==>
        exists k :: 0 <= k < |sells| && row[k] > 0.0 && e == ExitAt(sells[k], row[k])
  {
    MatchingRow(buys, sells, |buys|, i);
    FillsAreEntries(sells, TakenRow(buys[i], sells, Remaining(buys, sells, i)), |sells|, e);
  }

  function ExitQuantity(exits: seq<Exit>): real {
    if exits == [] then 0.0 else ExitQuantity(exits[..|exits| - 1]) + exits[|exits| - 1].quantity
  }

  lemma ExitQuantityStep(exits: seq<Exit>, e: Exit)
    ensures ExitQuantity(exits + [e]) == ExitQuantity(exits) + e.quantity
  {
    assert (exits + [e])[..|exits|] == exits;
  }

  lemma {:induction false} FillsAddUp(sells: seq<Order>, row: seq<real>, j: nat)
    requires j <= |sells| == |row|
    requires forall k :: 0 <= k < |row| ==> row[k] >= 0.0
    ensures ExitQuantity(Fills(sells, row, j)) == Sum(row[..j])
  {
    if j > 0 {
      FillsAddUp(sells, row, j - 1);
      SumPrefix(row, j - 1);
      var before := Fills(sells, row, j - 1);
      if row[j - 1] > 0.0 {
        ExitQuantityStep(before, Exit(sells[j - 1].moment, sells[j - 1].price, row[j - 1]));
      } else {
        assert before + [] == before;
      }
    }
  }

  lemma FillsExtend(b: Order, before: seq<Exit>, last: Exit)
    requires b.moment < last.moment && last.quantity > 0.0
    requires forall e :: e in before ==> b.moment < e.moment && e.quantity > 0.0 && e.moment <= last.moment
    ensures forall e :: e in before + [last] ==> b.moment < e.moment && e.quantity > 0.0 && e.moment <= last.moment
  {}

  lemma {:induction false} FillsInOrder(b: Order, sells: seq<Order>, rem: seq<real>, j: nat)
    requires j <= |sells| == |rem| && Ordered(sells)
    ensures
      var fills := Fills(sells, TakenRow(b, sells, rem), j);
      && (forall e :: e in fills ==>
          b.moment < e.moment && e.quantity > 0.0 && j > 0 && e.moment <= sells[j - 1].moment)
      && (forall e :: e in fills ==> e.moment <= fills[|fills| - 1].moment)
  {
    if j > 0 {
      var row := TakenRow(b, sells, rem);
      var before, fills := Fills(sells, row, j - 1), Fills(sells, row, j);
      FillsInOrder(b, sells, rem, j - 1);
      assert j > 1 ==> sells[j - 2].moment <= sells[j - 1].moment;
      if row[j - 1] > 0.0 {
        var last := Exit(sells[j - 1].moment, sells[j - 1].price, row[j - 1]);
        assert row[j - 1] == Taken(b, sells, rem, j - 1);
        assert fills == before + [last];
        FillsExtend(b, before, last);
      } else {
        assert fills == before;
      }
    }
  }

  lemma {:induction false} OutcomeBalances(buys: seq<Order>, sells: seq<Order>, i: nat)
    requires i < |buys| && AllPositive(buys)
    ensures
      var p := Outcome(buys, sells, i);
      && ExitQuantity(p.exits) + p.unmatched == buys[i].quantity
      && p.unmatched >= 0.0
  {
    var rem := Remaining(buys, sells, i);
    var row := TakenRow(buys[i], sells, rem);
    forall k | 0 <= k < |row| ensures row[k] >= 0.0 {
      assert row[k] == Taken(buys[i], sells, rem, k);
    }
    FillsAddUp(sells, row, |sells|);
    OpenIsBalance(buys[i], sells, rem, |sells|);
    OpenNeverNegative(buys[i], sells, rem, 0, |sells|);
    assert row[..|sells|] == row;
  }

  /** A position's exits lie after the purchase and together with the unmatched rest make up
      its quantity; it has an exit time, that of its last exit, exactly when nothing is left. */
  lemma {:induction false} OutcomeConserves(buys: seq<Order>, sells: seq<Order>, i: nat)
    requires i < |buys| && AllPositive(buys) && Ordered(sells)
    ensures
      var p := Outcome(buys, sells, i);
      && ExitQuantity(p.exits) + p.unmatched == buys[i].quantity
      && p.unmatched >= 0.0
      && (forall e :: e in p.exits ==> buys[i].moment < e.moment && e.quantity > 0.0)
      && (p.exitTime.Some? <==> p.unmatched == 0.0)
      && (p.exitTime.Some? ==> forall e :: e in p.exits ==> e.moment <= p.exitTime.value)
      && (p.profit.Some? <==> p.unmatched == 0.0 && forall e :: e in p.exits ==> e.price > 0.0)
  {
    OutcomeBalances(buys, sells, i);
    FillsInOrder(buys[i], sells, Remaining(buys, sells, i), |sells|);
    var p := Outcome(buys, sells, i);
    assert p.exits == [] ==> p.unmatched == buys[i].quantity;
  }

  /** The quantity that the first `n` positions have placed. */
  function Placed(buys: seq<Order>, sells: seq<Order>, n: nat): real
    requires n <= |buys|
  {
    if n == 0 then 0.0
    else Placed(buys, sells, n - 1) + ExitQuantity(Outcome(buys, sells, n - 1).exits)
  }

  lemma {:induction false} PlacedIsTotal(buys: seq<Order>, sells: seq<Order>, n: nat)
    requires n <= |buys| && AllPositive(buys) && Ordered(sells)
    ensures Placed(buys, sells, n) == Total(Matching(buys, sells, n))
  {
    if n > 0 {
      PlacedIsTotal(buys, sells, n - 1);
      OutcomeConserves(buys, sells, n - 1);
      assert Matching(buys, sells, n)[..n - 1] == Matching(buys, sells, n - 1);
    }
  }

  /** No assignment of later sales of the same security to the purchases places more quantity
      than the positions of `TradePositions` do. */
  lemma {:induction false} GreedyIsOptimal(events: seq<Event>, production: bool, plan: seq<seq<real>>)
    requires Feasible(plan, Buys(events, production), Sells(events))
    ensures Total(plan) <= Placed(Buys(events, production), Sells(events), |Buys(events, production)|)
  {
    var buys, sells := Buys(events, production), Sells(events);
    BuysArePositive(events, production);
    SortOrders(RecordedSells(events));
    FeasibleWithinBound(plan, buys, sells);
    GreedyReachesBound(buys, sells);
    PlacedIsTotal(buys, sells, |buys|);
  }
}
