/** Walking one side of an order book: how much a depth-limited walk can fill, what it pays,
    and why taking the levels in order is the best way to fill a quantity. */
module Depth {
  import opened Wrappers

  datatype Level = Level(price: real, quantity: real)

  predicate Usable(level: Level) { level.price > 0.0 && level.quantity > 0.0 }

  // The levels a walk may fill from: those of the first maxDepth with a positive price and quantity.
  function UsableLevels(levels: seq<Level>, maxDepth: int): (u: seq<Level>)
    ensures forall i :: 0 <= i < |u| ==> Usable(u[i])
    decreases |levels|
  {
    if levels == [] || maxDepth <= 0 then []
    else (if Usable(levels[0]) then [levels[0]] else []) + UsableLevels(levels[1..], maxDepth - 1)
  }

  function Min(a: real, b: real): real { if a > b then b else a }

  function Total(u: seq<Level>): real {
    if u == [] then 0.0 else u[0].quantity + Total(u[1..])
  }

  // What q units at price p come to.  Proofs about walks hide this product from the solver.
  function Pay(q: real, p: real): real { q * p }

  function Average(cost: real, q: real): real
    requires q != 0.0
  {
    cost / q
  }

  // What the first q units cost when the levels are taken in order.
  function Cost(u: seq<Level>, q: real): real {
    if u == [] || q <= 0.0 then 0.0
    else
      var taken := Min(u[0].quantity, q);
      Pay(taken, u[0].price) + Cost(u[1..], q - taken)
  }

  // The volume-weighted price of the first q units, when the usable depth holds that many.
  function Vwap(levels: seq<Level>, q: real, maxDepth: int): Option<real> {
    var u := UsableLevels(levels, maxDepth);
    if q > 0.0 && q <= Total(u) then Some(Average(Cost(u, q), q)) else None
  }

  // What the estimator counts as depth: positive quantities, whatever their price.
  function QuantitySum(levels: seq<Level>, maxDepth: int): real
    decreases |levels|
  {
    if levels == [] || maxDepth <= 0 then 0.0
    else (if levels[0].quantity > 0.0 then levels[0].quantity else 0.0) + QuantitySum(levels[1..], maxDepth - 1)
  }

  /* ---------- The three loops of the source ---------- */

  lemma PayNothing(p: real)
    ensures Pay(0.0, p) == 0.0
  {
  }

  lemma CostStep(u: seq<Level>, q: real)
    requires u != [] && u[0].quantity > 0.0 && q >= 0.0
    ensures Cost(u, q) == Pay(Min(u[0].quantity, q), u[0].price) + Cost(u[1..], q - Min(u[0].quantity, q))
  {
    hide Pay;
    PayNothing(u[0].price);
  }

  lemma {:induction false} TotalNonnegative(u: seq<Level>)
    requires forall i :: 0 <= i < |u| ==> Usable(u[i])
    ensures Total(u) >= 0.0
    ensures u != [] ==> Total(u) > 0.0
  {
    if u == [] {
    } else {
      TotalNonnegative(u[1..]);
    }
  }

  // One iteration of the walk: level i is skipped, or it is the next to fill from.
  lemma WalkStep(levels: seq<Level>, i: nat, maxDepth: int, need: real)
    requires i < |levels| && i < maxDepth && need > 0.0
    ensures var here := UsableLevels(levels[i..], maxDepth - i);
            var rest := UsableLevels(levels[i + 1..], maxDepth - (i + 1));
            if !Usable(levels[i]) then here == rest
            else
              var taken := Min(levels[i].quantity, need);
              && Total(here) == levels[i].quantity + Total(rest)
              && Cost(here, need) == Pay(taken, levels[i].price) + Cost(rest, need - taken)
              && Total(rest) >= 0.0
  {
    hide Pay;
    var here, rest := UsableLevels(levels[i..], maxDepth - i), UsableLevels(levels[i + 1..], maxDepth - (i + 1));
    assert levels[i..][1..] == levels[i + 1..];
    if !Usable(levels[i]) {
      assert here == [] + rest == rest;
    } else {
      assert here == [levels[i]] + rest && here[1..] == rest;
      CostStep(here, need);
      TotalNonnegative(rest);
    }
  }

  // Beyond the last level or the level limit there is nothing to fill from.
  lemma WalkEnds(levels: seq<Level>, i: nat, maxDepth: int)
    requires i <= |levels| && (i == |levels| || i >= maxDepth)
    ensures Total(UsableLevels(levels[i..], maxDepth - i)) == 0.0
  {
  }

  lemma NothingCostsNothing(u: seq<Level>)
    ensures Cost(u, 0.0) == 0.0
  {
  }

  method VwapForQuantity(levels: seq<Level>, targetQty: real, maxDepth: int) returns (price: real, ok: bool)
    ensures ok == Vwap(levels, targetQty, maxDepth).Some?
    ensures price == if ok then Vwap(levels, targetQty, maxDepth).value else 0.0
  {
    hide Pay, Average, UsableLevels, Cost, Total;
    if targetQty <= 0.0 {
      return 0.0, false;
    }
    assert levels[0..] == levels;
    var cost := 0.0;
    var filled := 0.0;
    ghost var u := UsableLevels(levels, maxDepth);
    for i := 0 to |levels|
      invariant 0.0 <= filled < targetQty
      invariant Total(u) == filled + Total(UsableLevels(levels[i..], maxDepth - i))
      invariant Cost(u, targetQty) == cost + Cost(UsableLevels(levels[i..], maxDepth - i), targetQty - filled)
    {
      if i >= maxDepth {
        WalkEnds(levels, i, maxDepth);
        break;
      }
      var level := levels[i];
      WalkStep(levels, i, maxDepth, targetQty - filled);
      if level.price <= 0.0 || level.quantity <= 0.0 {
        continue;
      }
      var qty := level.quantity;
      var remaining := targetQty - filled;
      if qty > remaining {
        qty := remaining;
      }
      cost := cost + Pay(qty, level.price);
      filled := filled + qty;
      if filled >= targetQty {
        NothingCostsNothing(UsableLevels(levels[i + 1..], maxDepth - (i + 1)));
        assert filled == targetQty && cost == Cost(u, targetQty);
        return Average(cost, filled), true;
      }
    }
    WalkEnds(levels, |levels|, maxDepth);
    return 0.0, false;
  }

  method SumQuantity(levels: seq<Level>, maxDepth: int) returns (total: real)
    ensures total == QuantitySum(levels, maxDepth)
  {
    total := 0.0;
    for i := 0 to |levels|
      invariant QuantitySum(levels, maxDepth) == total + QuantitySum(levels[i..], maxDepth - i)
    {
      if i >= maxDepth {
        break;
      }
      assert levels[i..][1..] == levels[i + 1..];
      if levels[i].quantity > 0.0 {
        total := total + levels[i].quantity;
      }
    }
  }

  // The least positive value, or zero when there is none.
  ghost predicate IsMinPositive(values: seq<real>, out: real) {
    && (out == 0.0 <==> forall i :: 0 <= i < |values| ==> values[i] <= 0.0)
    && (out != 0.0 ==> out in values && out > 0.0)
    && forall i :: 0 <= i < |values| && values[i] > 0.0 ==> out <= values[i]
  }

  method MinPositive(values: seq<real>) returns (out: real)
    ensures IsMinPositive(values, out)
  {
    out := 0.0;
    for i := 0 to |values|
      invariant IsMinPositive(values[..i], out)
    {
      assert values[..i + 1] == values[..i] + [values[i]];
      var value := values[i];
      if value <= 0.0 {
        continue;
      }
      if out == 0.0 || value < out {
        out := value;
      }
    }
    assert values[..|values|] == values;
  }

  /* ---------- Basic facts ---------- */

  // Only the first maxDepth levels count: one more at the end is walked exactly when it is among them and usable.
  lemma {:induction false} OneMoreUsable(levels: seq<Level>, level: Level, maxDepth: int)
    ensures UsableLevels([], maxDepth) == []
    ensures UsableLevels(levels + [level], maxDepth) ==
            UsableLevels(levels, maxDepth) +
            (if |levels| < maxDepth && level.price > 0.0 && level.quantity > 0.0 then [level] else [])
    decreases |levels|
  {
    var all := levels + [level];
    if levels == [] {
      assert all[1..] == [];
    } else if maxDepth <= 0 {
    } else {
      OneMoreUsable(levels[1..], level, maxDepth - 1);
      assert all[1..] == levels[1..] + [level];
    }
  }

  // The same of the counted depth, where any positive quantity counts.
  lemma {:induction false} OneMoreCounted(levels: seq<Level>, level: Level, maxDepth: int)
    ensures QuantitySum([], maxDepth) == 0.0
    ensures QuantitySum(levels + [level], maxDepth) ==
            QuantitySum(levels, maxDepth) +
            (if |levels| < maxDepth && level.quantity > 0.0 then level.quantity else 0.0)
    decreases |levels|
  {
    var all := levels + [level];
    if levels == [] {
      assert all[1..] == [];
    } else if maxDepth <= 0 {
    } else {
      OneMoreCounted(levels[1..], level, maxDepth - 1);
      assert all[1..] == levels[1..] + [level];
    }
  }

  // On books whose levels are all usable, the estimator's depth is exactly what a walk can fill.
  lemma {:induction false} QuantitySumIsFillable(levels: seq<Level>, maxDepth: int)
    requires forall i :: 0 <= i < |levels| ==> Usable(levels[i])
    ensures QuantitySum(levels, maxDepth) == Total(UsableLevels(levels, maxDepth))
    decreases |levels|
  {
    if levels == [] || maxDepth <= 0 {
    } else {
      QuantitySumIsFillable(levels[1..], maxDepth - 1);
      assert UsableLevels(levels, maxDepth)[1..] == UsableLevels(levels[1..], maxDepth - 1);
    }
  }

  // In general the estimator may count depth no walk can fill, never the other way round.
  lemma {:induction false} QuantitySumCoversFillable(levels: seq<Level>, maxDepth: int)
    ensures QuantitySum(levels, maxDepth) >= Total(UsableLevels(levels, maxDepth))
    decreases |levels|
  {
    if levels == [] || maxDepth <= 0 {
    } else {
      QuantitySumCoversFillable(levels[1..], maxDepth - 1);
      if Usable(levels[0]) {
        assert UsableLevels(levels, maxDepth)[1..] == UsableLevels(levels[1..], maxDepth - 1);
      } else {
        assert UsableLevels(levels, maxDepth) == UsableLevels(levels[1..], maxDepth - 1);
      }
    }
  }

  // A buyer walks the asks and wants a low price, a seller walks the bids and wants a high one.
  datatype Side = Asks | Bids

  predicate NoWorse(side: Side, a: real, b: real) {
    if side.Asks? then a <= b else a >= b
  }

  /* ---------- The algebra of Pay: everything else reasons with these laws ---------- */

  lemma PaySplit(whole: real, part: real, p: real)
    ensures Pay(whole, p) == Pay(part, p) + Pay(whole - part, p)
  {
    assert whole == part + (whole - part);
    assert (part + (whole - part)) * p == part * p + (whole - part) * p;
  }

  lemma PayMonotone(side: Side, q: real, p1: real, p2: real)
    requires q >= 0.0 && NoWorse(side, p1, p2)
    ensures NoWorse(side, Pay(q, p1), Pay(q, p2))
  {
    var gap := if side.Asks? then p2 - p1 else p1 - p2;
    assert q * gap >= 0.0;
  }

  lemma PayAverage(cost: real, q: real)
    requires q != 0.0
    ensures Pay(q, Average(cost, q)) == cost
  {
  }

  // Dividing by a positive quantity keeps the order.
  lemma AverageOrder(side: Side, a: real, b: real, q: real)
    requires q > 0.0
    ensures NoWorse(side, a, b) <==> NoWorse(side, Average(a, q), Average(b, q))
  {
    var gap := Average(b, q) - Average(a, q);
    assert b - a == gap * q;
    assert gap >= 0.0 <==> gap * q >= 0.0;
    assert gap <= 0.0 <==> gap * q <= 0.0;
  }

  /* ---------- Optimality of the walk ---------- */

  ghost predicate Sorted(side: Side, u: seq<Level>) {
    forall i, j :: 0 <= i < j < |u| ==> NoWorse(side, u[i].price, u[j].price)
  }

  function Sum(x: seq<real>): real {
    if x == [] then 0.0 else x[0] + Sum(x[1..])
  }

  // A way of filling q units: how much to take from each level, in any order.
  ghost predicate IsAllocation(u: seq<Level>, x: seq<real>, q: real) {
    && |x| == |u|
    && (forall i :: 0 <= i < |u| ==> 0.0 <= x[i] <= u[i].quantity)
    && Sum(x) == q
  }

  function AllocationCost(u: seq<Level>, x: seq<real>): real
    requires |x| == |u|
  {
    if u == [] then 0.0 else Pay(x[0], u[0].price) + AllocationCost(u[1..], x[1..])
  }

  // Prices on one side of p: going from a to b units costs at least (asks) or at most (bids) p per unit.
  lemma {:induction false} CostIncrement(side: Side, u: seq<Level>, a: real, b: real, p: real)
    requires forall i :: 0 <= i < |u| ==> Usable(u[i]) && NoWorse(side, p, u[i].price)
    requires 0.0 <= a <= b <= Total(u)
    ensures NoWorse(side, Pay(b - a, p), Cost(u, b) - Cost(u, a))
  {
    hide Pay;
    if u == [] {
      PayNothing(p);
    } else {
      TotalNonnegative(u[1..]);
      var ta, tb := Min(u[0].quantity, a), Min(u[0].quantity, b);
      CostStep(u, a);
      CostStep(u, b);
      CostIncrement(side, u[1..], a - ta, b - tb, p);
      PayMonotone(side, tb - ta, p, u[0].price);
      PaySplit(tb, ta, u[0].price);
      PaySplit(b - a, tb - ta, p);
      assert (b - a) - (tb - ta) == (b - tb) - (a - ta);
    }
  }

  // The exchange argument: no allocation of the same quantity beats the walk.
  lemma {:induction false} WalkIsOptimal(side: Side, u: seq<Level>, x: seq<real>, q: real)
    requires forall i :: 0 <= i < |u| ==> Usable(u[i])
    requires Sorted(side, u) && IsAllocation(u, x, q)
    ensures 0.0 <= q <= Total(u)
    ensures NoWorse(side, Cost(u, q), AllocationCost(u, x))
  {
    hide Pay;
    if u == [] {
    } else {
      var tail, rest, taken := u[1..], q - x[0], Min(u[0].quantity, q);
      WalkIsOptimal(side, tail, x[1..], rest);
      CostStep(u, q);
      CostIncrement(side, tail, q - taken, rest, u[0].price);
      PaySplit(taken, x[0], u[0].price);
      assert rest - (q - taken) == taken - x[0];
    }
  }

  // The walk itself is an allocation, so the optimum is attained.
  function WalkAllocation(u: seq<Level>, q: real): seq<real> {
    if u == [] then []
    else
      var taken := if q <= 0.0 then 0.0 else Min(u[0].quantity, q);
      [taken] + WalkAllocation(u[1..], q - taken)
  }

  lemma {:induction false} WalkIsAllocation(u: seq<Level>, q: real)
    requires forall i :: 0 <= i < |u| ==> Usable(u[i])
    requires 0.0 <= q <= Total(u)
    ensures IsAllocation(u, WalkAllocation(u, q), q)
    ensures AllocationCost(u, WalkAllocation(u, q)) == Cost(u, q)
  {
    hide Pay;
    if u == [] {
    } else {
      var taken := Min(u[0].quantity, q);
      TotalNonnegative(u[1..]);
      WalkIsAllocation(u[1..], q - taken);
      CostStep(u, q);
      assert WalkAllocation(u, q)[1..] == WalkAllocation(u[1..], q - taken);
    }
  }

  // Which allocation: a level is touched only when those before it are used up.
  lemma {:induction false} WalkFillsInOrder(u: seq<Level>, q: real)
    requires forall i :: 0 <= i < |u| ==> Usable(u[i])
    ensures |WalkAllocation(u, q)| == |u|
    ensures forall j :: 0 <= j < |u| && q <= 0.0 ==> WalkAllocation(u, q)[j] == 0.0
    ensures forall i, j :: 0 <= i < j < |u| && WalkAllocation(u, q)[j] > 0.0 ==>
                             WalkAllocation(u, q)[i] == u[i].quantity
  {
    if u == [] {
    } else {
      var taken := if q <= 0.0 then 0.0 else Min(u[0].quantity, q);
      var all, rest := WalkAllocation(u, q), WalkAllocation(u[1..], q - taken);
      WalkFillsInOrder(u[1..], q - taken);
      assert all == [taken] + rest;
      hide WalkAllocation;
      assert q > taken ==> taken == u[0].quantity;
      forall i, j | 0 <= i < j < |u| && all[j] > 0.0
        ensures all[i] == u[i].quantity
      {
        assert all[j] == rest[j - 1];
        if i > 0 {
          assert all[i] == rest[i - 1];
        }
      }
    }
  }

  // A price can be had for q units by some way of filling them.
  ghost predicate Attainable(u: seq<Level>, q: real, price: real)
    requires q != 0.0
  {
    exists x :: IsAllocation(u, x, q) && price == Average(AllocationCost(u, x), q)
  }

  // The quoted price is the best attainable one, and a quote exists exactly when the quantity can be filled at all.
  lemma VwapIsBestAttainable(side: Side, levels: seq<Level>, q: real, maxDepth: int)
    requires Sorted(side, UsableLevels(levels, maxDepth)) && q > 0.0
    ensures var u := UsableLevels(levels, maxDepth);
            match Vwap(levels, q, maxDepth)
            case None => forall x :: !IsAllocation(u, x, q)
            case Some(v) =>
              && Attainable(u, q, v)
              && forall x :: IsAllocation(u, x, q) ==> NoWorse(side, v, Average(AllocationCost(u, x), q))
  {
    var u := UsableLevels(levels, maxDepth);
    forall x | IsAllocation(u, x, q)
      ensures q <= Total(u) && NoWorse(side, Average(Cost(u, q), q), Average(AllocationCost(u, x), q))
    {
      WalkIsOptimal(side, u, x, q);
      AverageOrder(side, Cost(u, q), AllocationCost(u, x), q);
    }
    if q <= Total(u) {
      WalkIsAllocation(u, q);
    }
  }

  /* ---------- Slippage ---------- */

  // The price of the last level a walk for q units touches.
  function LastPrice(u: seq<Level>, q: real): real
    requires u != []
  {
    if |u| == 1 || q <= u[0].quantity then u[0].price else LastPrice(u[1..], q - u[0].quantity)
  }

  // A walk pays between its first and last price, and every later unit costs at least its last price.
  lemma {:induction false} CostBetweenFirstAndLast(side: Side, u: seq<Level>, q: real, b: real)
    requires forall i :: 0 <= i < |u| ==> Usable(u[i])
    requires Sorted(side, u)
    requires 0.0 < q <= b <= Total(u)
    ensures u != []
    ensures NoWorse(side, u[0].price, LastPrice(u, q))
    ensures NoWorse(side, Pay(q, u[0].price), Cost(u, q))
    ensures NoWorse(side, Cost(u, q), Pay(q, LastPrice(u, q)))
    ensures NoWorse(side, Pay(b - q, LastPrice(u, q)), Cost(u, b) - Cost(u, q))
  {
    hide Pay;
    var q0, p0, tail := u[0].quantity, u[0].price, u[1..];
    CostStep(u, q);
    TotalNonnegative(tail);
    if q <= q0 || |u| == 1 {
      assert q <= q0;
      assert Cost(tail, 0.0) == 0.0;
      CostIncrement(side, u, q, b, p0);
    } else {
      CostStep(u, b);
      CostBetweenFirstAndLast(side, tail, q - q0, b - q0);
      var last := LastPrice(tail, q - q0);
      PayMonotone(side, q0, p0, last);
      PayMonotone(side, q - q0, p0, tail[0].price);
      PaySplit(q, q0, p0);
      PaySplit(q, q0, last);
      assert (b - q0) - (q - q0) == b - q;
    }
  }

  lemma AveragePay(q: real, p: real)
    requires q != 0.0
    ensures Average(Pay(q, p), q) == p
  {
  }

  lemma PriceBetween(side: Side, cost: real, q: real, first: real, last: real)
    requires q > 0.0 && NoWorse(side, Pay(q, first), cost) && NoWorse(side, cost, Pay(q, last))
    ensures NoWorse(side, first, Average(cost, q)) && NoWorse(side, Average(cost, q), last)
  {
    AverageOrder(side, Pay(q, first), cost, q);
    AverageOrder(side, cost, Pay(q, last), q);
    AveragePay(q, first);
    AveragePay(q, last);
  }

  lemma PriceGrows(side: Side, c1: real, c2: real, q1: real, q2: real, last: real)
    requires 0.0 < q1 <= q2
    requires NoWorse(side, c1, Pay(q1, last)) && NoWorse(side, Pay(q2 - q1, last), c2 - c1)
    ensures NoWorse(side, Average(c1, q1), Average(c2, q2))
  {
    hide Pay, Average;
    var v := Average(c1, q1);
    PayAverage(c1, q1);
    PriceBetween(side, c1, q1, v, last);
    PayMonotone(side, q2 - q1, v, last);
    PaySplit(q2, q1, v);
    PayAverage(c2, q2);
    PriceBetween(side, c2, q2, v, Average(c2, q2));
  }

  // Larger orders never get a better price, and the price stays between the first and the last level touched.
  lemma SlippageIsMonotone(side: Side, levels: seq<Level>, q1: real, q2: real, maxDepth: int)
    requires Sorted(side, UsableLevels(levels, maxDepth))
    requires 0.0 < q1 <= q2 <= Total(UsableLevels(levels, maxDepth))
    ensures UsableLevels(levels, maxDepth) != []
    ensures var u, v1, v2 := UsableLevels(levels, maxDepth), Vwap(levels, q1, maxDepth), Vwap(levels, q2, maxDepth);
            && v1.Some? && v2.Some?
            && NoWorse(side, v1.value, v2.value)
            && NoWorse(side, u[0].price, v1.value)
            && NoWorse(side, v1.value, LastPrice(u, q1))
  {
    var u := UsableLevels(levels, maxDepth);
    CostBetweenFirstAndLast(side, u, q1, q2);
    PriceBetween(side, Cost(u, q1), q1, u[0].price, LastPrice(u, q1));
    PriceGrows(side, Cost(u, q1), Cost(u, q2), q1, q2, LastPrice(u, q1));
  }
}
