/** The money of a fixed-list backtest: cash and what the holdings cost are the start and the results. */
module FixedListLedger {
  import opened Common
  import opened Backtest
  import opened BacktestLedger
  import opened FixedListBacktest

  function CostOfOne(h: Holding): real {
    Amount(h.cost, h.quantity)
  }

  /** What the holdings of the symbols below `n` cost. */
  function CostBelow(holdings: map<Symbol, Holding>, n: nat): real {
    if n == 0 then 0.0 else CostBelow(holdings, n - 1) + CostOfOne(Get(holdings, n - 1, NOTHING))
  }

  /** What all holdings cost. */
  ghost function CostOfAll(holdings: map<Symbol, Holding>): real {
    CostBelow(holdings, Limit(holdings.Keys))
  }

  lemma {:induction false} CostBelowUpdates(holdings: map<Symbol, Holding>, s: Symbol, h: Holding, n: nat)
    ensures CostBelow(holdings[s := h], n) ==
            CostBelow(holdings, n) + if s < n then CostOfOne(h) - CostOfOne(Get(holdings, s, NOTHING)) else 0.0
  {
    if n > 0 {
      CostBelowUpdates(holdings, s, h, n - 1);
    }
  }

  lemma {:induction false} NothingCostsNothing(holdings: map<Symbol, Holding>, k: nat, n: nat)
    requires k <= n && forall s :: s in holdings ==> s < k
    ensures CostBelow(holdings, n) == CostBelow(holdings, k)
  {
    if k < n {
      NothingCostsNothing(holdings, k, n - 1);
    }
  }

  /** The symbols in the book lie below `n`, and cash and cost are the start and the results. */
  ghost predicate Balanced(start: real, n: nat, b: Book) {
    && (forall s :: s in b.holdings ==> s < n)
    && b.cash + CostBelow(b.holdings, n) == start + Sum(b.results)
  }

  lemma SumAdds(xs: seq<real>, x: real)
    ensures Sum(xs + [x]) == Sum(xs) + x
  {
    assert (xs + [x])[..|xs|] == xs;
  }

  lemma SaleIsBalanced(rules: Rules, b: Book, tick: Tick, start: real, n: nat)
    requires Balanced(start, n, b) && tick.symbol < n
    ensures Balanced(start, n, SellAll(rules, b, tick))
  {
    var h, price := HeldOf(b, tick.symbol), ExecutionPrice(rules, Sell, tick);
    var fee := Fee(rules, price, h.quantity);
    var pnl, sold := Profit(price, h.cost, h.quantity, fee), SellAll(rules, b, tick);
    CostBelowUpdates(b.holdings, tick.symbol, NOTHING, n);
    assert CostBelow(sold.holdings, n) == CostBelow(b.holdings, n) - CostOfOne(h);
    SumAdds(b.results, pnl);
    SaleBalances(price, h, fee);
    assert sold.cash == b.cash + (Amount(price, h.quantity) - fee);
  }

  lemma SaleBalances(price: real, h: Holding, fee: real)
    ensures Profit(price, h.cost, h.quantity, fee) == Amount(price, h.quantity) - fee - CostOfOne(h)
  {
    ProfitIsProceedsLessCost(price, h.cost, h.quantity, fee);
  }

  lemma HighRaisedIsBalanced(b: Book, tick: Tick, start: real, n: nat)
    requires Balanced(start, n, b) && tick.symbol < n
    ensures Balanced(start, n, HighRaised(b, tick))
  {
    var h := HeldOf(b, tick.symbol);
    CostBelowUpdates(b.holdings, tick.symbol, h.(high := Max(h.high, tick.price)), n);
  }

  lemma PurchaseIsBalanced(rules: Rules, data: History, b: Book, tick: Tick, start: real, n: nat)
    requires Balanced(start, n, b) && tick.symbol < n && HeldOf(b, tick.symbol).quantity == 0
    ensures Balanced(start, n, BuyIn(rules, data, b, tick))
  {
    var quantity := AdjustedQuantity(rules, rules.quantityPerTrade, BarsUntil(data, tick.symbol, tick.index));
    if quantity > 0 {
      var price := ExecutionPrice(rules, Buy, tick);
      var fee := Fee(rules, price, quantity);
      UnitCostCoversFee(price, quantity, fee);
      CostBelowUpdates(b.holdings, tick.symbol,
                       Holding(quantity, UnitCost(price, quantity, fee), price, price, fee, tick.index), n);
    }
  }

  lemma BarIsBalanced(rules: Rules, data: History, b: Book, tick: Tick, start: real, n: nat)
    requires Balanced(start, n, b) && tick.symbol < n
    ensures Balanced(start, n, BarStep(rules, data, b, tick))
  {
    SaleIsBalanced(rules, b, tick, start, n);
    var flat := Liquidated(rules, b, tick);
    HighRaisedIsBalanced(flat, tick, start, n);
    var raised := HighRaised(flat, tick);
    SaleIsBalanced(rules, raised, tick, start, n);
    if HeldOf(raised, tick.symbol).quantity == 0 {
      PurchaseIsBalanced(rules, data, raised, tick, start, n);
    }
  }

  ghost function Balancing(start: real, n: nat): Book -> bool {
    b => Balanced(start, n, b)
  }

  lemma PassIsBalanced(rules: Rules, data: History, b: Book, s: Symbol, start: real, n: nat)
    requires Balanced(start, n, b) && s < n
    ensures Balanced(start, n, Pass(rules, data, b, s))
  {
    var step, listed := Stepper(rules, data), (tick: Tick) => tick.symbol < n;
    forall c: Book, tick: Tick | Balanced(start, n, c) && listed(tick) ensures Balanced(start, n, step(c, tick)) {
      BarIsBalanced(rules, data, c, tick, start, n);
    }
    FoldKeeps(step, b, Ticks(data, s), Balancing(start, n), listed);
  }

  lemma RunIsBalanced(rules: Rules, data: History, symbols: seq<Symbol>, start: real, n: nat)
    requires forall k :: 0 <= k < |symbols| ==> symbols[k] < n
    ensures Balanced(start, n, RunList(rules, data, symbols, start))
  {
    var pass, listed := Passer(rules, data), (s: Symbol) => s < n;
    forall b: Book, s: Symbol | Balanced(start, n, b) && listed(s) ensures Balanced(start, n, pass(b, s)) {
      PassIsBalanced(rules, data, b, s, start, n);
    }
    var book := Book(start, map[], [], []);
    NothingCostsNothing(book.holdings, 0, n);
    FoldKeeps(pass, book, symbols, Balancing(start, n), listed);
  }

  /** Whatever symbols are listed, once or more often, cash and the cost of the holdings are the starting cash and
      the results. */
  lemma ListMoneyIsConserved(rules: Rules, data: History, symbols: seq<Symbol>, start: real)
    ensures
      var b := RunList(rules, data, symbols, start);
      b.cash + CostOfAll(b.holdings) == start + Sum(b.results)
  {
    var b := RunList(rules, data, symbols, start);
    var listed := set s | s in symbols;
    var n, k := Limit(listed + b.holdings.Keys), Limit(b.holdings.Keys);
    var m := if k <= n then n else k;
    assert forall j :: 0 <= j < |symbols| ==> symbols[j] in listed + b.holdings.Keys;
    RunIsBalanced(rules, data, symbols, start, m);
    NothingCostsNothing(b.holdings, k, m);
  }
}
