/** The master of listed securities (scripts/tasks/update_listed_securities_master.py,
    `build_updated_master`). */
module SecuritiesMaster {
  import opened Common

  type Date = nat

  /** A row without `listedTo` is active. */
  datatype Row = Row(symbol: Symbol, division: string, listedFrom: Date, listedTo: Option<Date>)

  type Listing = map<Symbol, string>

  /** What becomes of an existing row. */
  function Carried(row: Row, listing: Listing, today: Date): Row {
    if row.listedTo.Some? then row
    else if row.symbol in listing then row.(division := listing[row.symbol])
    else row.(listedTo := Some(today))
  }

  function CarriedAll(rows: seq<Row>, listing: Listing, today: Date): (carried: seq<Row>)
    ensures |carried| == |rows|
    ensures forall i :: 0 <= i < |rows| ==> carried[i] == Carried(rows[i], listing, today)
  {
    if rows == [] then []
    else CarriedAll(rows[..|rows| - 1], listing, today) + [Carried(rows[|rows| - 1], listing, today)]
  }

  function ActiveSymbols(rows: seq<Row>): (active: set<Symbol>)
    ensures forall s :: s in active <==> exists i :: 0 <= i < |rows| && rows[i].symbol == s && rows[i].listedTo.None?
  {
    set i | 0 <= i < |rows| && rows[i].listedTo.None? :: rows[i].symbol
  }

  function Entered(symbols: seq<Symbol>, listing: Listing, today: Date): (rows: seq<Row>)
    requires forall k :: 0 <= k < |symbols| ==> symbols[k] in listing
    ensures |rows| == |symbols|
    ensures forall k :: 0 <= k < |symbols| ==> rows[k] == Row(symbols[k], listing[symbols[k]], today, None)
  {
    seq(|symbols|, k requires 0 <= k < |symbols| => Row(symbols[k], listing[symbols[k]], today, None))
  }

  function NewSymbols(rows: seq<Row>, listing: Listing): (symbols: seq<Symbol>)
    ensures forall k :: 0 <= k < |symbols| ==> symbols[k] in listing
  {
    var added := listing.Keys - ActiveSymbols(rows);
    AscendingIsSorted(added, Limit(added));
    assert forall k :: 0 <= k < |Sorted(added)| ==> Sorted(added)[k] in Sorted(added);
    Sorted(added)
  }

  function Updated(rows: seq<Row>, listing: Listing, today: Date): seq<Row> {
    CarriedAll(rows, listing, today) + Entered(NewSymbols(rows, listing), listing, today)
  }

  method BuildUpdatedMaster(existing: seq<Row>, listing: Listing, today: Date) returns (updated: seq<Row>)
    ensures updated == Updated(existing, listing, today)
  {
    updated := [];
    var active: set<Symbol> := {};
    for i := 0 to |existing|
      invariant updated == CarriedAll(existing[..i], listing, today)
      invariant active == ActiveSymbols(existing[..i])
    {
      assert existing[..i + 1][..i] == existing[..i];
      ActiveExtends(existing, i);
      assert CarriedAll(existing[..i + 1], listing, today) ==
             CarriedAll(existing[..i], listing, today) + [Carried(existing[i], listing, today)];
      var row := existing[i];
      if row.listedTo.Some? {
        updated := updated + [row];
        continue;
      }
      active := active + {row.symbol};
      if row.symbol in listing {
        if row.division != listing[row.symbol] {
          row := row.(division := listing[row.symbol]);
        }
        updated := updated + [row];
      } else {
        updated := updated + [row.(listedTo := Some(today))];
      }
    }
    assert existing[..|existing|] == existing;
    var symbols := NewSymbols(existing, listing);
    updated := AppendNew(updated, symbols, listing, today);
  }

  method AppendNew(rows: seq<Row>, symbols: seq<Symbol>, listing: Listing, today: Date) returns (updated: seq<Row>)
    requires forall k :: 0 <= k < |symbols| ==> symbols[k] in listing
    ensures updated == rows + Entered(symbols, listing, today)
  {
    updated := rows;
    for k := 0 to |symbols|
      invariant updated == rows + Entered(symbols, listing, today)[..k]
    {
      updated := updated + [Row(symbols[k], listing[symbols[k]], today, None)];
    }
  }

  lemma ActiveExtends(rows: seq<Row>, i: nat)
    requires i < |rows|
    ensures ActiveSymbols(rows[..i + 1]) ==
      ActiveSymbols(rows[..i]) + (if rows[i].listedTo.None? then {rows[i].symbol} else {})
  {
    forall k | 0 <= k < i ensures rows[..i + 1][k] == rows[..i][k] {}
    assert rows[..i + 1][i] == rows[i];
  }

  // ---------------------------------------------------------------- the listing is shown exactly

  /** The active rows are those of the listing: every listed symbol has one, and each shows its division. */
  ghost predicate Shows(rows: seq<Row>, listing: Listing) {
    && (forall s :: s in listing ==> exists i :: 0 <= i < |rows| && rows[i].symbol == s && rows[i].listedTo.None?)
    && forall i :: 0 <= i < |rows| && rows[i].listedTo.None? ==>
         rows[i].symbol in listing && rows[i].division == listing[rows[i].symbol]
  }

  /** No symbol has two active rows. */
  ghost predicate Unambiguous(rows: seq<Row>) {
    forall i, j :: 0 <= i < j < |rows| && rows[i].listedTo.None? && rows[j].listedTo.None? ==>
      rows[i].symbol != rows[j].symbol
  }

  lemma NewSymbolsAreExact(rows: seq<Row>, listing: Listing)
    ensures
      var symbols := NewSymbols(rows, listing);
      && (forall s :: s in symbols <==> s in listing && s !in ActiveSymbols(rows))
      && forall i, j :: 0 <= i < j < |symbols| ==> symbols[i] < symbols[j]
  {
    var added := listing.Keys - ActiveSymbols(rows);
    AscendingIsSorted(added, Limit(added));
  }

  /** The place of the active row of a listed symbol. */
  lemma PlaceOf(rows: seq<Row>, listing: Listing, today: Date, s: Symbol) returns (i: nat)
    requires s in listing
    ensures
      var updated := Updated(rows, listing, today);
      i < |updated| && updated[i].symbol == s && updated[i].listedTo.None?
  {
    NewSymbolsAreExact(rows, listing);
    var symbols := NewSymbols(rows, listing);
    if s in symbols {
      var k :| 0 <= k < |symbols| && symbols[k] == s;
      i := |rows| + k;
      assert Updated(rows, listing, today)[i] == Entered(symbols, listing, today)[k];
    } else {
      assert s in ActiveSymbols(rows);
      i :| 0 <= i < |rows| && rows[i].symbol == s && rows[i].listedTo.None?;
      assert Updated(rows, listing, today)[i] == Carried(rows[i], listing, today);
    }
  }

  lemma UpdatedShowsListing(rows: seq<Row>, listing: Listing, today: Date)
    ensures Shows(Updated(rows, listing, today), listing)
  {
    var updated := Updated(rows, listing, today);
    forall s | s in listing
      ensures exists i :: 0 <= i < |updated| && updated[i].symbol == s && updated[i].listedTo.None? {
      var i := PlaceOf(rows, listing, today, s);
    }
  }

  /** Active rows are unambiguous afterwards exactly when the listed ones were before. */
  lemma UpdatedIsUnambiguousIff(rows: seq<Row>, listing: Listing, today: Date)
    ensures Unambiguous(Updated(rows, listing, today)) <==> ListedOnce(rows, listing)
  {
    if ListedOnce(rows, listing) {
      ListedOnceSuffices(rows, listing, today);
    } else {
      var i, j :| 0 <= i < j < |rows| && rows[i].listedTo.None? && rows[j].listedTo.None?
        && rows[i].symbol == rows[j].symbol && rows[i].symbol in listing;
      var updated := Updated(rows, listing, today);
      assert updated[i] == Carried(rows[i], listing, today) && updated[j] == Carried(rows[j], listing, today);
    }
  }

  /** No listed symbol has two active rows. */
  ghost predicate ListedOnce(rows: seq<Row>, listing: Listing) {
    forall i, j ::
      0 <= i < j < |rows| && rows[i].listedTo.None? && rows[j].listedTo.None? && rows[i].symbol == rows[j].symbol ==>
      rows[i].symbol !in listing
  }

  lemma ActiveAfter(rows: seq<Row>, listing: Listing, today: Date, i: nat)
    requires i < |Updated(rows, listing, today)| && Updated(rows, listing, today)[i].listedTo.None?
    ensures
      var symbol, symbols := Updated(rows, listing, today)[i].symbol, NewSymbols(rows, listing);
      if i < |rows| then rows[i].listedTo.None? && symbol == rows[i].symbol && symbol in listing
      else symbol == symbols[i - |rows|] && symbol !in ActiveSymbols(rows)
  {
    NewSymbolsAreExact(rows, listing);
    if i < |rows| {
      assert Updated(rows, listing, today)[i] == Carried(rows[i], listing, today);
    } else {
      assert NewSymbols(rows, listing)[i - |rows|] in NewSymbols(rows, listing);
    }
  }

  lemma ListedOnceSuffices(rows: seq<Row>, listing: Listing, today: Date)
    requires ListedOnce(rows, listing)
    ensures Unambiguous(Updated(rows, listing, today))
  {
    var updated := Updated(rows, listing, today);
    NewSymbolsAreExact(rows, listing);
    forall i, j | 0 <= i < j < |updated| && updated[i].listedTo.None? && updated[j].listedTo.None?
      ensures updated[i].symbol != updated[j].symbol
    {
      ActiveAfter(rows, listing, today, i);
      ActiveAfter(rows, listing, today, j);
    }
  }

  /** Closed rows, symbols and entry dates never change, and a row is closed exactly when it was active
      and its symbol is no longer listed. */
  lemma HistoryIsKept(rows: seq<Row>, listing: Listing, today: Date, i: nat)
    requires i < |rows|
    ensures
      var updated := Updated(rows, listing, today);
      && |updated| >= |rows|
      && updated[i].symbol == rows[i].symbol && updated[i].listedFrom == rows[i].listedFrom
      && (rows[i].listedTo.Some? ==> updated[i] == rows[i])
      && (rows[i].listedTo.None? ==> updated[i].listedTo == if rows[i].symbol in listing then None else Some(today))
  {}

  /** Applying the same listing again, on whatever day, changes nothing. */
  lemma ReapplyingChangesNothing(rows: seq<Row>, listing: Listing, today: Date, later: Date)
    ensures Updated(Updated(rows, listing, today), listing, later) == Updated(rows, listing, today)
  {
    var updated := Updated(rows, listing, today);
    UpdatedShowsListing(rows, listing, today);
    NewSymbolsAreExact(updated, listing);
    assert NewSymbols(updated, listing) == [] by {
      forall s | s in listing ensures s in ActiveSymbols(updated) {}
    }
    forall i | 0 <= i < |updated| ensures Carried(updated[i], listing, later) == updated[i] {}
  }

  // ---------------------------------------------------------------- update after update

  datatype Update = Update(listing: Listing, today: Date)

  function Updater(): (seq<Row>, Update) -> seq<Row> {
    (rows: seq<Row>, u: Update) => Updated(rows, u.listing, u.today)
  }

  function AfterUpdates(rows: seq<Row>, updates: seq<Update>): seq<Row> {
    Fold(Updater(), rows, updates)
  }

  lemma {:induction false} StaysUnambiguous(rows: seq<Row>, updates: seq<Update>)
    requires Unambiguous(rows)
    ensures Unambiguous(AfterUpdates(rows, updates))
  {
    forall rs: seq<Row>, u: Update | Unambiguous(rs) ensures Unambiguous(Updater()(rs, u)) {
      UpdatedIsUnambiguousIff(rs, u.listing, u.today);
    }
    FoldKeeps(Updater(), rows, updates, Unambiguous, _ => true);
  }

  /** After any updates of an unambiguous master, such as the empty one, the active rows are exactly the
      last listing, one for each symbol. */
  lemma {:induction false} MasterShowsLastListing(rows: seq<Row>, updates: seq<Update>)
    requires Unambiguous(rows) && updates != []
    ensures Unambiguous(AfterUpdates(rows, updates))
    ensures Shows(AfterUpdates(rows, updates), updates[|updates| - 1].listing)
  {
    StaysUnambiguous(rows, updates);
    var n := |updates| - 1;
    FoldTurn(Updater(), rows, updates, n);
    assert updates[..n + 1] == updates;
    UpdatedShowsListing(AfterUpdates(rows, updates[..n]), updates[n].listing, updates[n].today);
  }

  /** A closed row stays as it is through any updates, and a row's symbol and entry date always do. */
  lemma {:induction false} ClosedRowsStay(rows: seq<Row>, updates: seq<Update>, i: nat)
    requires i < |rows|
    ensures
      var after := AfterUpdates(rows, updates);
      && |after| >= |rows|
      && after[i].symbol == rows[i].symbol && after[i].listedFrom == rows[i].listedFrom
      && (rows[i].listedTo.Some? ==> after[i] == rows[i])
  {
    if updates != [] {
      var n := |updates| - 1;
      ClosedRowsStay(rows, updates[..n], i);
      HistoryIsKept(AfterUpdates(rows, updates[..n]), updates[n].listing, updates[n].today, i);
    }
  }
}
