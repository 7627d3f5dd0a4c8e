/** Budget allocation over ranked candidates (src/application/allocate_budget.py,
    src/domain/affordability.py). */
module Allocation {
  import opened Common

  datatype Candidate = Candidate(symbol: Symbol, currentPrice: real)

  datatype Allotment = Allotment(symbol: Symbol, requiredCash: real, quantity: int)

  predicate Affordable(c: Candidate, cash: real, unit: int) {
    c.currentPrice > 0.0 && c.currentPrice * unit as real <= cash
  }

  /** The candidates of which one trading unit fits `cash`, in their order. */
  function AffordableStocks(candidates: seq<Candidate>, cash: real, unit: int): seq<Candidate> {
    if candidates == [] then []
    else
      var last := candidates[|candidates| - 1];
      AffordableStocks(candidates[..|candidates| - 1], cash, unit) +
      (if Affordable(last, cash, unit) then [last] else [])
  }

  /** The number of trading units that `budget` buys at `cost` a unit. */
  function Lots(budget: real, cost: real): int
    requires cost > 0.0
  {
    (budget / cost).Floor
  }

  /** The number of shares, in whole trading units, that `budget` buys at a positive price. */
  function WholeUnits(budget: real, price: real, unit: int): int
    requires price > 0.0 && unit > 0
  {
    Lots(budget, price * unit as real) * unit
  }

  lemma WithinBudget(budget: real, cost: real, n: real)
    requires cost > 0.0
    ensures cost * n <= budget <==> n <= budget / cost
  {
    var q := budget / cost;
    assert q * cost == budget;
    if n <= q {
      ScaleKeepsOrder(n, q, cost);
    }
  }

  /** A number of units fits the budget exactly when it does not exceed `Lots`. */
  lemma {:induction false} LotsAreMaximal(budget: real, cost: real, lots: int)
    requires cost > 0.0
    ensures cost * lots as real <= budget <==> lots <= Lots(budget, cost)
  {
    WithinBudget(budget, cost, lots as real);
  }

  /** The shares bought cost no more than the budget, and one more unit would cost more;
      nothing is bought exactly when a single unit does not fit. */
  lemma {:induction false} WholeUnitsAreMaximal(budget: real, price: real, unit: int)
    requires price > 0.0 && unit > 0 && budget >= 0.0
    ensures
      var quantity := WholeUnits(budget, price, unit);
      && quantity >= 0
      && price * quantity as real <= budget < price * (quantity + unit) as real
      && (quantity >= unit <==> price * unit as real <= budget)
  {
    var cost := price * unit as real;
    var lots := Lots(budget, cost);
    UnitCost(price, unit, lots);
    UnitCost(price, unit, lots + 1);
    LotsAreMaximal(budget, cost, lots);
    LotsAreMaximal(budget, cost, lots + 1);
    LotsAreMaximal(budget, cost, 0);
    LotsAreMaximal(budget, cost, 1);
    if lots >= 1 {
      assert lots * unit >= unit;
    }
  }

  lemma UnitCost(price: real, unit: int, lots: int)
    ensures price * (lots * unit) as real == price * unit as real * lots as real
  {
    assert (lots * unit) as real == lots as real * unit as real;
  }

  function Cost(price: real, quantity: int): real {
    price * quantity as real
  }

  /** The allotment of one candidate out of a fixed budget, looking at nothing else. */
  function Share(c: Candidate, budget: real, unit: int): seq<Allotment>
    requires unit > 0
  {
    if Affordable(c, budget, unit) then
      var quantity := WholeUnits(budget, c.currentPrice, unit);
      [Allotment(c.symbol, Cost(c.currentPrice, quantity), quantity)]
    else []
  }

  function Shares(candidates: seq<Candidate>, budget: real, unit: int): seq<Allotment>
    requires unit > 0
  {
    if candidates == [] then []
    else Shares(candidates[..|candidates| - 1], budget, unit) + Share(candidates[|candidates| - 1], budget, unit)
  }

  function FirstOf<T>(xs: seq<T>, n: nat): seq<T> {
    if |xs| <= n then xs else xs[..n]
  }

  function Spent(allotments: seq<Allotment>): real {
    if allotments == [] then 0.0
    else Spent(allotments[..|allotments| - 1]) + allotments[|allotments| - 1].requiredCash
  }

  /** What is spent is the sum of the cash that the allotments require. */
  lemma {:induction false} SpentIsSum(allotments: seq<Allotment>)
    ensures Spent(allotments) ==
            Sum(seq(|allotments|, i requires 0 <= i < |allotments| => allotments[i].requiredCash))
  {
    var all := seq(|allotments|, i requires 0 <= i < |allotments| => allotments[i].requiredCash);
    if allotments != [] {
      var rest := allotments[..|allotments| - 1];
      SpentIsSum(rest);
      assert all[..|all| - 1] == seq(|rest|, i requires 0 <= i < |rest| => rest[i].requiredCash);
    }
  }

  predicate Rejected(totalCash: real, targetPositions: int, unit: int, maxOrderAmount: Option<real>) {
    totalCash < 0.0 || targetPositions < 0 || unit <= 0 || (maxOrderAmount.Some? && maxOrderAmount.value < 0.0)
  }

  function BudgetPerPosition(totalCash: real, targetPositions: int, maxOrderAmount: Option<real>): real
    requires targetPositions > 0
  {
    var equal := totalCash / targetPositions as real;
    if maxOrderAmount.Some? then Min(equal, maxOrderAmount.value) else equal
  }

  /** The affordability filter over the whole cash removes nobody that the budget would serve. */
  lemma {:induction false} FilterIsRedundant(candidates: seq<Candidate>, cash: real, budget: real, unit: int)
    requires unit > 0 && budget <= cash
    ensures Shares(AffordableStocks(candidates, cash, unit), budget, unit) == Shares(candidates, budget, unit)
  {
    if candidates != [] {
      var n := |candidates| - 1;
      FilterIsRedundant(candidates[..n], cash, budget, unit);
      var kept := AffordableStocks(candidates[..n], cash, unit);
      if Affordable(candidates[n], cash, unit) {
        assert (kept + [candidates[n]])[..|kept|] == kept;
      } else {
        assert AffordableStocks(candidates, cash, unit) == kept;
      }
    }
  }

  lemma {:induction false} SharesExtend(candidates: seq<Candidate>, budget: real, unit: int, n: nat)
    requires unit > 0 && n <= |candidates|
    ensures Shares(candidates[..n], budget, unit) <= Shares(candidates, budget, unit)
    decreases |candidates|
  {
    if n < |candidates| {
      var m := |candidates| - 1;
      SharesExtend(candidates[..m], budget, unit, n);
      assert candidates[..m][..n] == candidates[..n];
    } else {
      assert candidates[..n] == candidates;
    }
  }

  /** `budget` taken `n` times. */
  function Times(budget: real, n: nat): real {
    if n == 0 then 0.0 else Times(budget, n - 1) + budget
  }

  lemma {:induction false} TimesIsProduct(budget: real, n: nat)
    ensures Times(budget, n) == budget * n as real
  {
    if n > 0 {
      TimesIsProduct(budget, n - 1);
    }
  }

  lemma {:induction false} TimesGrows(budget: real, m: nat, n: nat)
    requires m <= n && 0.0 <= budget
    ensures Times(budget, m) <= Times(budget, n)
    ensures m < n ==> Times(budget, m) + budget <= Times(budget, n)
  {
    if m < n {
      TimesGrows(budget, m, n - 1);
    }
  }

  lemma ShareOfPriced(c: Candidate, budget: real, unit: int)
    requires unit > 0 && c.currentPrice > 0.0 && budget >= 0.0
    ensures
      var quantity := WholeUnits(budget, c.currentPrice, unit);
      && Share(c, budget, unit) ==
           (if quantity < unit then [] else [Allotment(c.symbol, Cost(c.currentPrice, quantity), quantity)])
      && Cost(c.currentPrice, quantity) <= budget
  {
    WholeUnitsAreMaximal(budget, c.currentPrice, unit);
    var quantity := WholeUnits(budget, c.currentPrice, unit);
    if Affordable(c, budget, unit) {
      assert quantity >= unit;
    } else {
      assert quantity < unit;
    }
  }

  /** One turn of the allocation: the cash left covers the budget of a free position, and the money
      spent stays within the budgets used. */
  lemma OneTurn(affordable: seq<Candidate>, totalCash: real, targetPositions: nat, unit: int, budget: real, i: nat)
    requires unit > 0 && 0.0 <= budget && i < |affordable| && affordable[i].currentPrice > 0.0
    requires Times(budget, targetPositions) <= totalCash
    requires
      var before := Shares(affordable[..i], budget, unit);
      |before| < targetPositions && Spent(before) <= Times(budget, |before|)
    ensures
      var before := Shares(affordable[..i], budget, unit);
      var share := Share(affordable[i], budget, unit);
      && budget <= totalCash - Spent(before)
      && Shares(affordable[..i + 1], budget, unit) == before + share
      && |share| <= 1
      && Spent(before + share) == Spent(before) + Spent(share)
      && Spent(before + share) <= Times(budget, |before + share|)
  {
    var before := Shares(affordable[..i], budget, unit);
    TimesGrows(budget, |before|, targetPositions);
    ShareOfPriced(affordable[i], budget, unit);
    SharesStep(affordable, budget, unit, i);
    var share := Share(affordable[i], budget, unit);
    if share == [] {
      assert before + share == before;
    }
  }

  lemma SharesStep(candidates: seq<Candidate>, budget: real, unit: int, i: nat)
    requires unit > 0 && i < |candidates|
    ensures Shares(candidates[..i + 1], budget, unit) ==
            Shares(candidates[..i], budget, unit) + Share(candidates[i], budget, unit)
  {
    assert candidates[..i + 1][..i] == candidates[..i];
  }

  /** Serves one candidate from the cash left. When the cash covers the budget, neither the cap by
      the cash nor the check against it takes effect. */
  method Serve(candidate: Candidate, unit: int, budget: real, remaining: real) returns (share: seq<Allotment>)
    requires candidate.currentPrice > 0.0 && unit > 0 && 0.0 <= budget <= remaining
    ensures share == Share(candidate, budget, unit)
  {
    var available := Min(budget, remaining);
    var quantity := WholeUnits(available, candidate.currentPrice, unit);
    ShareOfPriced(candidate, budget, unit);
    if quantity < unit {
      return [];
    }
    var required := Cost(candidate.currentPrice, quantity);
    if required > remaining {
      return [];
    }
    share := [Allotment(candidate.symbol, required, quantity)];
  }

  lemma FirstOnesAreTaken(candidates: seq<Candidate>, budget: real, unit: int, n: nat, taken: seq<Allotment>)
    requires unit > 0 && n <= |candidates| && taken == Shares(candidates[..n], budget, unit)
    ensures taken == FirstOf(Shares(candidates, budget, unit), |taken|)
  {
    SharesExtend(candidates, budget, unit, n);
  }

  /** Serves the candidates in order until every position is taken. */
  method Distribute(affordable: seq<Candidate>, totalCash: real, targetPositions: int, unit: int, budget: real)
    returns (allotments: seq<Allotment>)
    requires targetPositions > 0 && unit > 0 && 0.0 <= budget
    requires Times(budget, targetPositions) <= totalCash
    requires forall c :: c in affordable ==> c.currentPrice > 0.0
    ensures allotments == FirstOf(Shares(affordable, budget, unit), targetPositions)
    ensures Spent(allotments) <= totalCash
  {
    var remaining := totalCash;
    allotments := [];
    var i := 0;
    while i < |affordable|
      invariant 0 <= i <= |affordable|
      invariant allotments == Shares(affordable[..i], budget, unit)
      invariant |allotments| < targetPositions
      invariant remaining == totalCash - Spent(allotments)
      invariant Spent(allotments) <= Times(budget, |allotments|)
    {
      assert affordable[i] in affordable;
      OneTurn(affordable, totalCash, targetPositions, unit, budget, i);
      var share := Serve(affordable[i], unit, budget, remaining);
      i := i + 1;
      allotments := allotments + share;
      remaining := remaining - Spent(share);
      if |allotments| >= targetPositions {
        assert |allotments| == targetPositions;
        FirstOnesAreTaken(affordable, budget, unit, i, allotments);
        return;
      }
    }
    assert affordable[..|affordable|] == affordable;
    assert FirstOf(allotments, targetPositions) == allotments;
    TimesGrows(budget, |allotments|, targetPositions);
  }

  /** `chosen` are the candidates at the ascending places `from`, which are exactly those of the affordable ones. */
  ghost predicate PicksAffordable(candidates: seq<Candidate>, cash: real, unit: int, chosen: seq<Candidate>,
                                  from: seq<nat>) {
    && |from| == |chosen| && (forall k, l :: 0 <= k < l < |from| ==> from[k] < from[l])
    && (forall k :: 0 <= k < |from| ==>
          from[k] < |candidates| && chosen[k] == candidates[from[k]] && Affordable(chosen[k], cash, unit))
    && forall i :: 0 <= i < |candidates| && Affordable(candidates[i], cash, unit) ==> i in from
  }

  /** Exactly the affordable candidates are chosen, in their order. */
  lemma {:induction false} AffordableArePicked(candidates: seq<Candidate>, cash: real, unit: int)
    returns (from: seq<nat>)
    ensures PicksAffordable(candidates, cash, unit, AffordableStocks(candidates, cash, unit), from)
  {
    from := [];
    if candidates != [] {
      var n := |candidates| - 1;
      from := AffordableArePicked(candidates[..n], cash, unit);
      var chosen, all := AffordableStocks(candidates[..n], cash, unit), AffordableStocks(candidates, cash, unit);
      if Affordable(candidates[n], cash, unit) {
        assert all == chosen + [candidates[n]];
        PickOne(candidates, cash, unit, chosen, from, all);
        from := from + [n];
      } else {
        assert all == chosen;
        PickNone(candidates, cash, unit, chosen, from);
      }
    }
  }

  lemma PickOne(candidates: seq<Candidate>, cash: real, unit: int, chosen: seq<Candidate>, from: seq<nat>,
                all: seq<Candidate>)
    requires candidates != [] && Affordable(candidates[|candidates| - 1], cash, unit)
    requires PicksAffordable(candidates[..|candidates| - 1], cash, unit, chosen, from)
    requires all == chosen + [candidates[|candidates| - 1]]
    ensures PicksAffordable(candidates, cash, unit, all, from + [|candidates| - 1])
  {
    var n := |candidates| - 1;
    forall i | 0 <= i < |candidates| && Affordable(candidates[i], cash, unit) ensures i in from + [n] {
      assert i < n ==> candidates[..n][i] == candidates[i];
    }
  }

  lemma PickNone(candidates: seq<Candidate>, cash: real, unit: int, chosen: seq<Candidate>, from: seq<nat>)
    requires candidates != [] && !Affordable(candidates[|candidates| - 1], cash, unit)
    requires PicksAffordable(candidates[..|candidates| - 1], cash, unit, chosen, from)
    ensures PicksAffordable(candidates, cash, unit, chosen, from)
  {
    var n := |candidates| - 1;
    forall i | 0 <= i < |candidates| && Affordable(candidates[i], cash, unit) ensures i in from {
      assert i < n && candidates[..n][i] == candidates[i];
    }
  }

  lemma PickedArePriced(candidates: seq<Candidate>, cash: real, unit: int, chosen: seq<Candidate>)
    requires exists from :: PicksAffordable(candidates, cash, unit, chosen, from)
    ensures forall c :: c in chosen ==> c.currentPrice > 0.0
  {
    var from :| PicksAffordable(candidates, cash, unit, chosen, from);
    assert forall k :: 0 <= k < |chosen| ==> Affordable(chosen[k], cash, unit);
  }

  method CalcAffordableStocks(candidates: seq<Candidate>, cash: real, unit: int) returns (r: Result<seq<Candidate>>)
    ensures r.Raised? <==> cash < 0.0 || unit <= 0
    ensures r.Ok? ==> r.value == AffordableStocks(candidates, cash, unit)
    ensures r.Ok? ==> exists from :: PicksAffordable(candidates, cash, unit, r.value, from)
  {
    if cash < 0.0 || unit <= 0 {
      return Raised;
    }
    ghost var from := AffordableArePicked(candidates, cash, unit);
    r := Ok(AffordableStocks(candidates, cash, unit));
  }

  /** The stateful loop gives every candidate whose unit fits the per-position budget its whole
      units, stops after the target, and never spends more than there is. */
  method AllocateBudget(candidates: seq<Candidate>, totalCash: real, targetPositions: int,
                        unit: int, maxOrderAmount: Option<real>)
    returns (r: Result<seq<Allotment>>)
    ensures r.Raised? <==>
      totalCash < 0.0 || targetPositions < 0 || unit <= 0 || (maxOrderAmount.Some? && maxOrderAmount.value < 0.0)
    ensures r.Ok? && targetPositions == 0 ==> r.value == []
    ensures r.Ok? && targetPositions > 0 ==>
      r.value == FirstOf(Shares(candidates, BudgetPerPosition(totalCash, targetPositions, maxOrderAmount), unit),
                         targetPositions)
    ensures r.Ok? ==> Spent(r.value) <= totalCash
    ensures r.Ok? && targetPositions > 0 ==>
      Allots(candidates, Payable(totalCash, targetPositions, maxOrderAmount), targetPositions, unit, r.value)
  {
    if Rejected(totalCash, targetPositions, unit, maxOrderAmount) {
      return Raised;
    }
    if targetPositions == 0 {
      return Ok([]);
    }
    var budget := BudgetPerPosition(totalCash, targetPositions, maxOrderAmount);
    var found := CalcAffordableStocks(candidates, totalCash, unit);
    var affordable := found.value;
    BudgetFits(totalCash, targetPositions, maxOrderAmount);
    FilterIsRedundant(candidates, totalCash, budget, unit);

    PickedArePriced(candidates, totalCash, unit, affordable);
    var allotments := Distribute(affordable, totalCash, targetPositions, unit, budget);
    FirstSharesAllot(candidates, totalCash, targetPositions, maxOrderAmount, unit);
    r := Ok(allotments);
  }

  /** The cash pays for as many positions of an amount as there are to be, and an order may be that large. */
  ghost function Payable(totalCash: real, targetPositions: int, maxOrderAmount: Option<real>): real -> bool {
    (amount: real) =>
      amount * targetPositions as real <= totalCash && (maxOrderAmount.Some? ==> amount <= maxOrderAmount.value)
  }

  /** An amount is within the budget of a position exactly when it is payable. */
  lemma BudgetIff(totalCash: real, targetPositions: int, maxOrderAmount: Option<real>, amount: real)
    requires targetPositions > 0
    ensures amount <= BudgetPerPosition(totalCash, targetPositions, maxOrderAmount) <==>
            Payable(totalCash, targetPositions, maxOrderAmount)(amount)
  {
    WithinBudget(totalCash, targetPositions as real, amount);
  }

  /** The most whole units of one candidate that are payable, at least one. */
  ghost predicate MostUnits(payable: real -> bool, unit: int, c: Candidate, a: Allotment) {
    && a.symbol == c.symbol && a.requiredCash == c.currentPrice * a.quantity as real
    && a.quantity >= unit && (exists units :: a.quantity == units * unit)
    && payable(a.requiredCash) && !payable(c.currentPrice * (a.quantity + unit) as real)
  }

  /** The candidates with a price of which one unit is payable. */
  ghost function Served(payable: real -> bool, unit: int): Candidate -> bool {
    (c: Candidate) => c.currentPrice > 0.0 && payable(c.currentPrice * unit as real)
  }

  lemma UnitsOf(budget: real, price: real, unit: int) returns (units: int)
    requires price > 0.0 && unit > 0
    ensures WholeUnits(budget, price, unit) == units * unit
  {
    units := Lots(budget, price * unit as real);
  }

  lemma ShareIsMost(c: Candidate, budget: real, payable: real -> bool, unit: int)
    requires unit > 0 && budget >= 0.0 && forall amount :: payable(amount) <==> amount <= budget
    ensures
      var share := Share(c, budget, unit);
      if Served(payable, unit)(c) then |share| == 1 && MostUnits(payable, unit, c, share[0]) else share == []
  {
    if c.currentPrice > 0.0 {
      WholeUnitsAreMaximal(budget, c.currentPrice, unit);
      var units := UnitsOf(budget, c.currentPrice, unit);
      ShareOfPriced(c, budget, unit);
    }
  }

  /** The shares belong to the candidates of which a unit is payable, in order, each with its most units. */
  lemma {:induction false} SharesAreMost(candidates: seq<Candidate>, budget: real, payable: real -> bool, unit: int)
    requires unit > 0 && budget >= 0.0 && forall amount :: payable(amount) <==> amount <= budget
    ensures
      var shares, served := Shares(candidates, budget, unit), Filter(candidates, Served(payable, unit));
      && |shares| == |served|
      && forall k :: 0 <= k < |shares| ==> MostUnits(payable, unit, served[k], shares[k])
  {
    if candidates != [] {
      SharesAreMost(candidates[..|candidates| - 1], budget, payable, unit);
      ShareIsMost(candidates[|candidates| - 1], budget, payable, unit);
    }
  }

  /** The allotments go to the first candidates of which a unit is payable, each with the most units payable. */
  ghost predicate Allots(candidates: seq<Candidate>, payable: real -> bool, targetPositions: int, unit: int,
                         allotments: seq<Allotment>) {
    var served := Filter(candidates, Served(payable, unit));
    && |allotments| == (if |served| <= targetPositions then |served| else targetPositions)
    && forall k :: 0 <= k < |allotments| ==> MostUnits(payable, unit, served[k], allotments[k])
  }

  lemma FirstSharesAllot(candidates: seq<Candidate>, totalCash: real, targetPositions: int,
                         maxOrderAmount: Option<real>, unit: int)
    requires targetPositions > 0 && unit > 0 && totalCash >= 0.0
    requires maxOrderAmount.Some? ==> maxOrderAmount.value >= 0.0
    ensures
      var budget := BudgetPerPosition(totalCash, targetPositions, maxOrderAmount);
      Allots(candidates, Payable(totalCash, targetPositions, maxOrderAmount), targetPositions, unit,
             FirstOf(Shares(candidates, budget, unit), targetPositions))
  {
    var payable := Payable(totalCash, targetPositions, maxOrderAmount);
    var budget := BudgetPerPosition(totalCash, targetPositions, maxOrderAmount);
    BudgetFits(totalCash, targetPositions, maxOrderAmount);
    forall amount ensures payable(amount) <==> amount <= budget {
      BudgetIff(totalCash, targetPositions, maxOrderAmount, amount);
    }
    SharesAreMost(candidates, budget, payable, unit);
  }

  lemma BudgetFits(totalCash: real, targetPositions: int, maxOrderAmount: Option<real>)
    requires targetPositions > 0 && totalCash >= 0.0 && (maxOrderAmount.Some? ==> maxOrderAmount.value >= 0.0)
    ensures
      var budget := BudgetPerPosition(totalCash, targetPositions, maxOrderAmount);
      0.0 <= budget <= totalCash && Times(budget, targetPositions) <= totalCash
  {
    var equal, n := totalCash / targetPositions as real, targetPositions as real;
    assert equal * n == totalCash;
    var budget := BudgetPerPosition(totalCash, targetPositions, maxOrderAmount);
    assert 0.0 <= budget <= equal;
    ScaleKeepsOrder(budget, equal, n);
    assert budget * n <= totalCash;
    ScaleKeepsOrder(1.0, n, budget);
    assert n * budget == budget * n;
    TimesIsProduct(budget, targetPositions);
  }
}
