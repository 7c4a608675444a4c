/** Estimating one long/short pair of exchanges: how much to trade, at what prices, and what
    remains of the funding carry after fees and a basis-risk buffer. */
module Estimator {
  import opened Clock
  import opened Depth
  import opened Funding
  import opened Identifier
  import opened Market
  import opened Wrappers

  datatype EstimateInput = EstimateInput(
    symbol: string, longBook: OrderBook, shortBook: OrderBook,
    longFunding: FundingSnapshot, shortFunding: FundingSnapshot,
    longFeePct: real, shortFeePct: real, maxNotional: real, maxDepthLevels: int,
    basisRiskPct: real, minExpectedCarryUSD: real, minExpectedCarryPct: real, detectedAt: Time)

  datatype Opportunity = Opportunity(
    id: string, symbol: string, longExchange: Name, shortExchange: Name,
    quantity: real, longEntryPrice: real, shortEntryPrice: real,
    expectedCarryUSD: real, entryCostUSD: real, exitCostUSD: real, basisRiskBufferUSD: real,
    expectedNetProfitUSD: real, expectedNetProfitPct: real, netFundingRatePct: real,
    detectedAt: Time, validUntil: Time, targetFundingTime: Time)

  datatype Estimate = Accepted(opportunity: Opportunity) | Rejected(reason: string)

  const DEFAULT_DEPTH := 5

  function DepthLimit(maxDepthLevels: int): (d: int)
    ensures d > 0
    ensures d == if maxDepthLevels > 0 then maxDepthLevels else 5
  {
    if maxDepthLevels <= 0 then DEFAULT_DEPTH else maxDepthLevels
  }

  function Max(a: real, b: real): real { if a > b then a else b }

  function MinOfPositive(a: real, b: real): real {
    if a <= 0.0 then (if b <= 0.0 then 0.0 else b)
    else if b <= 0.0 || a <= b then a else b
  }

  // The first gates: there is something to price.
  function Unpriceable(input: EstimateInput): Option<string> {
    if input.longBook.asks == [] || input.shortBook.bids == [] then Some("empty_book")
    else if IsZero(input.longFunding.nextFundingTime) || IsZero(input.shortFunding.nextFundingTime)
    then Some("missing_funding_window")
    else if !Usable(input.longBook.asks[0]) || !Usable(input.shortBook.bids[0])
    then Some("invalid_price_or_quantity")
    else None
  }

  function TargetQuantity(input: EstimateInput): real
    requires Unpriceable(input).None?
  {
    var cap := input.maxNotional / Max(input.longBook.asks[0].price, input.shortBook.bids[0].price);
    var depth := DepthLimit(input.maxDepthLevels);
    MinOfPositive(MinOfPositive(QuantitySum(input.longBook.asks, depth), QuantitySum(input.shortBook.bids, depth)), cap)
  }

  function Carry(q: real, mark: real, net: real): real { q * mark * net / 100.0 }

  // Taker fees of both legs, paid on entry and again on exit.
  function EntryCost(q: real, long: real, short: real, longFee: real, shortFee: real): real {
    q * long * longFee / 100.0 + q * short * shortFee / 100.0
  }

  function Notional(q: real, long: real, short: real): real { q * Max(long, short) }

  function RiskBuffer(q: real, long: real, short: real, basis: real): real { Notional(q, long, short) * basis / 100.0 }

  // The opportunity at given quantity and entry prices, before the profit gates.
  function Priced(input: EstimateInput, q: real, long: real, short: real, wall: Time): Opportunity {
    var notional := Notional(q, long, short);
    var net := input.shortFunding.predictedFundingPct - input.longFunding.predictedFundingPct;
    var carry := Carry(q, input.longFunding.markPrice, net);
    var entryCost := EntryCost(q, long, short, input.longFeePct, input.shortFeePct);
    var buffer := RiskBuffer(q, long, short, input.basisRiskPct);
    var profit := carry - entryCost - entryCost - buffer;
    var pct := if notional > 0.0 then profit / notional * 100.0 else 0.0;
    var detectedAt := if IsZero(input.detectedAt) then wall else input.detectedAt;
    var target := MinTime(input.longFunding.nextFundingTime, input.shortFunding.nextFundingTime);
    Opportunity(
      NewOpportunityID(input.symbol, input.longBook.exchange, input.shortBook.exchange, detectedAt),
      input.symbol, input.longBook.exchange, input.shortBook.exchange,
      q, long, short, carry, entryCost, entryCost, buffer, profit, pct, net,
      detectedAt, target, target)
  }

  function Unprofitable(input: EstimateInput, o: Opportunity): Option<string> {
    if o.expectedCarryUSD < input.minExpectedCarryUSD then Some("carry_below_threshold")
    else if o.expectedNetProfitUSD <= 0.0 then Some("net_profit_not_positive")
    else if o.expectedNetProfitPct < input.minExpectedCarryPct then Some("net_profit_pct_below_threshold")
    else None
  }

  function EstimateOf(input: EstimateInput, wall: Time): Estimate {
    if Unpriceable(input).Some? then Rejected(Unpriceable(input).value)
    else
      var q, depth := TargetQuantity(input), DepthLimit(input.maxDepthLevels);
      if q <= 0.0 then Rejected("zero_quantity")
      else
        var long, short := Vwap(input.longBook.asks, q, depth), Vwap(input.shortBook.bids, q, depth);
        if long.None? then Rejected("insufficient_long_depth")
        else if short.None? then Rejected("insufficient_short_depth")
        else
          var o := Priced(input, q, long.value, short.value, wall);
          if Unprofitable(input, o).Some? then Rejected(Unprofitable(input, o).value) else Accepted(o)
  }

  lemma MinPositiveOfThree(a: real, b: real, c: real, out: real)
    requires IsMinPositive([a, b, c], out)
    ensures out == MinOfPositive(MinOfPositive(a, b), c)
  {
    var values := [a, b, c];
    assert values[0] == a && values[1] == b && values[2] == c;
  }

  method EstimateFunding(input: EstimateInput, wall: Time) returns (r: Estimate)
    ensures r == EstimateOf(input, wall)
  {
    if |input.longBook.asks| == 0 || |input.shortBook.bids| == 0 {
      return Rejected("empty_book");
    }
    if IsZero(input.longFunding.nextFundingTime) || IsZero(input.shortFunding.nextFundingTime) {
      return Rejected("missing_funding_window");
    }
    var ask0, bid0 := input.longBook.asks[0], input.shortBook.bids[0];
    if ask0.price <= 0.0 || bid0.price <= 0.0 || ask0.quantity <= 0.0 || bid0.quantity <= 0.0 {
      return Rejected("invalid_price_or_quantity");
    }
    var maxDepth := input.maxDepthLevels;
    if maxDepth <= 0 {
      maxDepth := DEFAULT_DEPTH;
    }
    var maxQtyByNotional := input.maxNotional / Max(ask0.price, bid0.price);
    var longDepth := SumQuantity(input.longBook.asks, maxDepth);
    var shortDepth := SumQuantity(input.shortBook.bids, maxDepth);
    var targetQty := MinPositive([longDepth, shortDepth, maxQtyByNotional]);
    MinPositiveOfThree(longDepth, shortDepth, maxQtyByNotional, targetQty);
    assert targetQty == TargetQuantity(input);
    hide TargetQuantity, Vwap, Priced;
    if targetQty <= 0.0 {
      return Rejected("zero_quantity");
    }
    var longEntryPrice, longOk := VwapForQuantity(input.longBook.asks, targetQty, maxDepth);
    if !longOk {
      return Rejected("insufficient_long_depth");
    }
    var shortEntryPrice, shortOk := VwapForQuantity(input.shortBook.bids, targetQty, maxDepth);
    if !shortOk {
      return Rejected("insufficient_short_depth");
    }
    var opportunity := Priced(input, targetQty, longEntryPrice, shortEntryPrice, wall);
    if opportunity.expectedCarryUSD < input.minExpectedCarryUSD {
      return Rejected("carry_below_threshold");
    }
    if opportunity.expectedNetProfitUSD <= 0.0 {
      return Rejected("net_profit_not_positive");
    }
    if opportunity.expectedNetProfitPct < input.minExpectedCarryPct {
      return Rejected("net_profit_pct_below_threshold");
    }
    return Accepted(opportunity);
  }

  /* ---------- Sizing ---------- */

  // Both walks can fill q, and q at the worse best price is within the notional cap when there is one.
  ghost predicate Tradable(input: EstimateInput, q: real)
    requires Unpriceable(input).None?
  {
    var depth := DepthLimit(input.maxDepthLevels);
    && q <= Total(UsableLevels(input.longBook.asks, depth))
    && q <= Total(UsableLevels(input.shortBook.bids, depth))
    && (input.maxNotional > 0.0 ==>
          q * Max(input.longBook.asks[0].price, input.shortBook.bids[0].price) <= input.maxNotional)
  }

  lemma DepthIsFillable(levels: seq<Level>, depth: int)
    requires AllUsable(levels) && levels != [] && depth > 0
    ensures 0.0 < QuantitySum(levels, depth) == Total(UsableLevels(levels, depth))
  {
    QuantitySumIsFillable(levels, depth);
    TotalNonnegative(UsableLevels(levels, depth));
  }

  lemma MaxIsUpperBound(a: real, b: real)
    ensures Max(a, b) >= a && Max(a, b) >= b && (Max(a, b) == a || Max(a, b) == b)
  {
  }

  lemma QuotientFacts(q: real, notional: real, price: real)
    requires price > 0.0
    ensures Pay(q, price) == q * price && Average(Pay(q, price), price) == q
    ensures Average(notional, price) == notional / price && Average(0.0, price) == 0.0
  {
  }

  lemma CapInQuantity(q: real, notional: real, price: real)
    requires price > 0.0
    ensures notional > 0.0 <==> notional / price > 0.0
    ensures q <= notional / price <==> q * price <= notional
  {
    hide Pay, Average;
    AverageOrder(Asks, Pay(q, price), notional, price);
    AverageOrder(Asks, notional, 0.0, price);
    QuotientFacts(q, notional, price);
  }

  lemma UpToMinimum(q: real, a: real, b: real, cap: real)
    requires a > 0.0 && b > 0.0
    ensures var m := MinOfPositive(MinOfPositive(a, b), cap);
            m > 0.0 && (q <= m <==> q <= a && q <= b && (cap > 0.0 ==> q <= cap))
  {
  }

  // On parsed books a quantity is tradable exactly up to the target, which is positive, and both walks fill it.
  lemma SizingIsMaximal(input: EstimateInput)
    requires FeedBook(input.longBook) && FeedBook(input.shortBook)
    requires Unpriceable(input).None?
    ensures var q := TargetQuantity(input);
            && q > 0.0
            && (forall q' :: Tradable(input, q') <==> q' <= q)
            && Vwap(input.longBook.asks, q, DepthLimit(input.maxDepthLevels)).Some?
            && Vwap(input.shortBook.bids, q, DepthLimit(input.maxDepthLevels)).Some?
  {
    hide UsableLevels, QuantitySum, Total, Cost, Average, MinOfPositive, Max;
    var depth, q := DepthLimit(input.maxDepthLevels), TargetQuantity(input);
    var asks, bids := input.longBook.asks, input.shortBook.bids;
    DepthIsFillable(asks, depth);
    DepthIsFillable(bids, depth);
    var worst := Max(asks[0].price, bids[0].price);
    MaxIsUpperBound(asks[0].price, bids[0].price);
    forall q'
      ensures Tradable(input, q') <==> q' <= q
    {
      CapInQuantity(q', input.maxNotional, worst);
      UpToMinimum(q', QuantitySum(asks, depth), QuantitySum(bids, depth), input.maxNotional / worst);
    }
    assert Tradable(input, q);
    UpToMinimum(q, QuantitySum(asks, depth), QuantitySum(bids, depth), input.maxNotional / worst);
  }

  // For parsed books with a funding window, only an empty side or the profit gates can reject.
  lemma DepthNeverRejects(input: EstimateInput, wall: Time)
    requires FeedBook(input.longBook) && FeedBook(input.shortBook)
    requires EstimateOf(input, wall).Rejected?
    ensures EstimateOf(input, wall).reason !in
            {"invalid_price_or_quantity", "zero_quantity", "insufficient_long_depth", "insufficient_short_depth"}
  {
    if Unpriceable(input).None? {
      SizingIsMaximal(input);
      hide TargetQuantity, Vwap, Priced;
    }
  }

  /* ---------- What acceptance guarantees ---------- */

  // The quantity and entry prices behind an accepted estimate.
  lemma AcceptedIsPriced(input: EstimateInput, wall: Time)
    requires EstimateOf(input, wall).Accepted?
    ensures var o, depth := EstimateOf(input, wall).opportunity, DepthLimit(input.maxDepthLevels);
            && Unpriceable(input).None? && Unprofitable(input, o).None?
            && o.quantity == TargetQuantity(input) && o.quantity > 0.0
            && Vwap(input.longBook.asks, o.quantity, depth) == Some(o.longEntryPrice)
            && Vwap(input.shortBook.bids, o.quantity, depth) == Some(o.shortEntryPrice)
            && o == Priced(input, o.quantity, o.longEntryPrice, o.shortEntryPrice, wall)
  {
    hide TargetQuantity, Vwap;
  }

  lemma {:induction false} UsableIsPrefix(levels: seq<Level>, depth: int)
    requires AllUsable(levels)
    ensures UsableLevels(levels, depth) <= levels
    ensures levels != [] && depth > 0 ==> UsableLevels(levels, depth) != []
    decreases |levels|
  {
    if levels == [] || depth <= 0 {
    } else {
      UsableIsPrefix(levels[1..], depth - 1);
    }
  }

  lemma PayPositive(q: real, p: real)
    requires q > 0.0 && p > 0.0
    ensures Pay(q, p) > 0.0
  {
  }

  lemma {:induction false} CostIsPositive(u: seq<Level>, q: real)
    requires AllUsable(u) && 0.0 < q <= Total(u)
    ensures Cost(u, q) > 0.0
  {
    hide Pay;
    var taken := Min(u[0].quantity, q);
    CostStep(u, q);
    PayPositive(taken, u[0].price);
    if q - taken > 0.0 {
      CostIsPositive(u[1..], q - taken);
    }
  }

  lemma VwapIsPositive(levels: seq<Level>, q: real, depth: int)
    requires Vwap(levels, q, depth).Some?
    ensures Vwap(levels, q, depth).value > 0.0
  {
    hide Average;
    var u := UsableLevels(levels, depth);
    CostIsPositive(u, q);
    AverageOrder(Asks, Cost(u, q), 0.0, q);
    QuotientFacts(q, 0.0, q);
  }

  // Walking down a side that is sorted never yields a better price than its best level.
  lemma VwapBeyondBest(side: Side, levels: seq<Level>, q: real, depth: int)
    requires levels != [] && Usable(levels[0]) && depth > 0
    requires AllUsable(levels) && Sorted(side, levels)
    requires Vwap(levels, q, depth).Some?
    ensures NoWorse(side, levels[0].price, Vwap(levels, q, depth).value)
    ensures Vwap(levels, q, depth).value > 0.0
  {
    var u := UsableLevels(levels, depth);
    UsableIsPrefix(levels, depth);
    SlippageIsMonotone(side, levels, q, q, depth);
    VwapIsPositive(levels, q, depth);
  }

  lemma ScaledBetween(q: real, low: real, high: real)
    requires q > 0.0 && 0.0 < low <= high
    ensures 0.0 < q * low <= q * high
  {
    assert q * (high - low) >= 0.0;
  }

  // With the bids sorted, the short leg stays within the notional cap whatever its slippage.
  lemma ShortLegWithinCap(input: EstimateInput, wall: Time)
    requires EstimateOf(input, wall).Accepted?
    requires FeedBook(input.longBook) && FeedBook(input.shortBook) && BidsOrdered(input.shortBook)
    requires input.maxNotional > 0.0
    ensures var o := EstimateOf(input, wall).opportunity;
            0.0 < o.quantity * o.shortEntryPrice <= input.maxNotional
  {
    hide EstimateOf, TargetQuantity, Vwap, Priced, Max, Total, UsableLevels;
    AcceptedIsPriced(input, wall);
    SizingIsMaximal(input);
    var o := EstimateOf(input, wall).opportunity;
    var ask0, bid0 := input.longBook.asks[0].price, input.shortBook.bids[0].price;
    VwapBeyondBest(Bids, input.shortBook.bids, o.quantity, DepthLimit(input.maxDepthLevels));
    assert Tradable(input, o.quantity);
    MaxIsUpperBound(ask0, bid0);
    ScaledBetween(o.quantity, o.shortEntryPrice, Max(ask0, bid0));
  }

  lemma PositiveFactor(q: real, x: real)
    requires q > 0.0 && q * x > 0.0
    ensures x > 0.0
  {
  }

  lemma BreakEvenArithmetic(
      q: real, mark: real, net: real, long: real, short: real, longFee: real, shortFee: real, basis: real)
    requires q > 0.0 && long > 0.0 && short > 0.0
    requires longFee >= 0.0 && shortFee >= 0.0 && basis >= 0.0
    requires var entry := EntryCost(q, long, short, longFee, shortFee);
             Carry(q, mark, net) - entry - entry - RiskBuffer(q, long, short, basis) > 0.0
    ensures mark * net > long * (2.0 * longFee + basis)
  {
    var carry, longCost, shortCost, buffer := mark * net, long * longFee, short * shortFee, Max(long, short) * basis;
    assert q * (carry - 2.0 * longCost - 2.0 * shortCost - buffer) > 0.0;
    PositiveFactor(q, carry - 2.0 * longCost - 2.0 * shortCost - buffer);
    assert shortCost >= 0.0;
    assert (Max(long, short) - long) * basis >= 0.0;
  }

  // On any books: the carry at the mark pays both long-side fees and the basis buffer at the entry price.
  lemma BreakEvenAtTheMark(input: EstimateInput, wall: Time)
    requires EstimateOf(input, wall).Accepted?
    requires input.longFeePct >= 0.0 && input.shortFeePct >= 0.0 && input.basisRiskPct >= 0.0
    ensures var o := EstimateOf(input, wall).opportunity;
            input.longFunding.markPrice * o.netFundingRatePct >
            o.longEntryPrice * (2.0 * input.longFeePct + input.basisRiskPct)
  {
    hide EstimateOf, TargetQuantity, Vwap, Carry, EntryCost, RiskBuffer, Max, Notional;
    AcceptedIsPriced(input, wall);
    var o := EstimateOf(input, wall).opportunity;
    VwapIsPositive(input.longBook.asks, o.quantity, DepthLimit(input.maxDepthLevels));
    VwapIsPositive(input.shortBook.bids, o.quantity, DepthLimit(input.maxDepthLevels));
    BreakEvenArithmetic(o.quantity, input.longFunding.markPrice, o.netFundingRatePct,
                        o.longEntryPrice, o.shortEntryPrice, input.longFeePct, input.shortFeePct, input.basisRiskPct);
  }

  // On sorted asks and an uncrossed long book the mark is no higher than what is paid on entry.
  lemma MarkIsBelowEntry(input: EstimateInput, wall: Time)
    requires EstimateOf(input, wall).Accepted?
    requires FeedBook(input.longBook) && AsksOrdered(input.longBook) && Uncrossed(input.longBook)
    requires input.longFunding.markPrice == MarkPrice(input.longBook)
    ensures 0.0 < input.longFunding.markPrice <= EstimateOf(input, wall).opportunity.longEntryPrice
  {
    hide EstimateOf, TargetQuantity, Vwap, Priced;
    AcceptedIsPriced(input, wall);
    MarkIsBelowAsk(input.longBook);
    var q := EstimateOf(input, wall).opportunity.quantity;
    VwapBeyondBest(Asks, input.longBook.asks, q, DepthLimit(input.maxDepthLevels));
  }

  lemma CheaperMark(mark: real, entry: real, net: real, threshold: real)
    requires 0.0 < mark <= entry && threshold >= 0.0 && mark * net > entry * threshold
    ensures net > threshold
  {
    assert (entry - mark) * threshold >= 0.0;
    PositiveFactor(mark, net - threshold);
  }

  // There, an accepted pair's funding difference pays both long-side fees and the basis buffer.
  lemma BreakEven(input: EstimateInput, wall: Time)
    requires EstimateOf(input, wall).Accepted?
    requires FeedBook(input.longBook) && AsksOrdered(input.longBook) && Uncrossed(input.longBook)
    requires input.longFunding.markPrice == MarkPrice(input.longBook)
    requires input.longFeePct >= 0.0 && input.shortFeePct >= 0.0 && input.basisRiskPct >= 0.0
    ensures EstimateOf(input, wall).opportunity.netFundingRatePct > 2.0 * input.longFeePct + input.basisRiskPct
  {
    hide EstimateOf;
    BreakEvenAtTheMark(input, wall);
    MarkIsBelowEntry(input, wall);
    var o, mark := EstimateOf(input, wall).opportunity, input.longFunding.markPrice;
    CheaperMark(mark, o.longEntryPrice, o.netFundingRatePct, 2.0 * input.longFeePct + input.basisRiskPct);
  }

  lemma CarryArithmetic(
      q: real, mark: real, net: real, long: real, short: real, longFee: real, shortFee: real, basis: real)
    requires q > 0.0 && mark > 0.0 && long > 0.0 && short > 0.0
    requires longFee >= 0.0 && shortFee >= 0.0 && basis >= 0.0
    requires var entry := EntryCost(q, long, short, longFee, shortFee);
             Carry(q, mark, net) - entry - entry - RiskBuffer(q, long, short, basis) > 0.0
    ensures net > 0.0 && Carry(q, mark, net) > 0.0
  {
    assert q * long > 0.0 && q * short > 0.0 && q * mark > 0.0 && q * Max(long, short) > 0.0;
    assert q * long * longFee >= 0.0 && q * short * shortFee >= 0.0 && q * Max(long, short) * basis >= 0.0;
    PositiveFactor(q * mark, net);
  }

  // Without any assumption on the order of the books: fees can only be paid out of a positive rate difference.
  lemma AcceptedCarryIsPositive(input: EstimateInput, wall: Time)
    requires EstimateOf(input, wall).Accepted?
    requires input.longFunding.markPrice > 0.0
    requires input.longFeePct >= 0.0 && input.shortFeePct >= 0.0 && input.basisRiskPct >= 0.0
    ensures var o := EstimateOf(input, wall).opportunity;
            && o.netFundingRatePct > 0.0 && o.expectedCarryUSD > 0.0
            && o.quantity * o.longEntryPrice > 0.0
  {
    hide EstimateOf, TargetQuantity, Vwap, Carry, EntryCost, RiskBuffer, Max, Notional;
    AcceptedIsPriced(input, wall);
    var o := EstimateOf(input, wall).opportunity;
    VwapIsPositive(input.longBook.asks, o.quantity, DepthLimit(input.maxDepthLevels));
    VwapIsPositive(input.shortBook.bids, o.quantity, DepthLimit(input.maxDepthLevels));
    CarryArithmetic(o.quantity, input.longFunding.markPrice, o.netFundingRatePct, o.longEntryPrice, o.shortEntryPrice,
                    input.longFeePct, input.shortFeePct, input.basisRiskPct);
    ScaledBetween(o.quantity, o.longEntryPrice, o.longEntryPrice);
  }

  /* ---------- What every number in an estimate is ---------- */

  // The amounts of an accepted estimate, for all prices and fees; fees, buffer and rates are percentages.
  lemma EstimateAccounts(input: EstimateInput, wall: Time)
    requires EstimateOf(input, wall).Accepted?
    ensures var o := EstimateOf(input, wall).opportunity;
            var q, long, short := o.quantity, o.longEntryPrice, o.shortEntryPrice;
            && q > 0.0 && long > 0.0 && short > 0.0
            && o.netFundingRatePct == input.shortFunding.predictedFundingPct - input.longFunding.predictedFundingPct
            && 100.0 * o.expectedCarryUSD == q * input.longFunding.markPrice * o.netFundingRatePct
            && 100.0 * o.entryCostUSD == q * long * input.longFeePct + q * short * input.shortFeePct
            && o.exitCostUSD == o.entryCostUSD
            && 100.0 * o.basisRiskBufferUSD == q * Max(long, short) * input.basisRiskPct
            && o.expectedNetProfitUSD ==
               o.expectedCarryUSD - o.entryCostUSD - o.exitCostUSD - o.basisRiskBufferUSD
    ensures var o := EstimateOf(input, wall).opportunity;
            && o.symbol == input.symbol
            && o.longExchange == input.longBook.exchange && o.shortExchange == input.shortBook.exchange
            && o.detectedAt == (if input.detectedAt == 0 then wall else input.detectedAt)
            && o.id == NewOpportunityID(input.symbol, input.longBook.exchange, input.shortBook.exchange, o.detectedAt)
            && o.validUntil == o.targetFundingTime
            && o.targetFundingTime ==
               (if input.longFunding.nextFundingTime < input.shortFunding.nextFundingTime
                then input.longFunding.nextFundingTime else input.shortFunding.nextFundingTime)
  {
    hide EstimateOf, TargetQuantity, Vwap, NewOpportunityID;
    AcceptedIsPriced(input, wall);
    var o := EstimateOf(input, wall).opportunity;
    VwapIsPositive(input.longBook.asks, o.quantity, DepthLimit(input.maxDepthLevels));
    VwapIsPositive(input.shortBook.bids, o.quantity, DepthLimit(input.maxDepthLevels));
  }

  lemma QuotientAtLeast(profit: real, notional: real, t: real)
    requires notional > 0.0
    ensures profit / notional * 100.0 >= t <==> 100.0 * profit >= t * notional
  {
    var pct := profit / notional * 100.0;
    assert pct * notional == 100.0 * profit;
    if pct >= t {
      assert (pct - t) * notional >= 0.0;
    } else {
      assert (t - pct) * notional > 0.0;
    }
  }

  lemma NotionalIs(q: real, long: real, short: real)
    requires q > 0.0 && long > 0.0
    ensures Notional(q, long, short) == q * Max(long, short) > 0.0
  {
  }

  // The relative profit reaches a threshold exactly when the profit does, on the larger notional.
  lemma ProfitPctReaches(input: EstimateInput, wall: Time, t: real)
    requires EstimateOf(input, wall).Accepted?
    ensures var o := EstimateOf(input, wall).opportunity;
            o.expectedNetProfitPct >= t <==>
            100.0 * o.expectedNetProfitUSD >= t * (o.quantity * Max(o.longEntryPrice, o.shortEntryPrice))
  {
    hide EstimateOf, TargetQuantity, Vwap, NewOpportunityID, Carry, EntryCost, RiskBuffer, Notional;
    AcceptedIsPriced(input, wall);
    var o := EstimateOf(input, wall).opportunity;
    VwapIsPositive(input.longBook.asks, o.quantity, DepthLimit(input.maxDepthLevels));
    NotionalIs(o.quantity, o.longEntryPrice, o.shortEntryPrice);
    QuotientAtLeast(o.expectedNetProfitUSD, Notional(o.quantity, o.longEntryPrice, o.shortEntryPrice), t);
  }

  // What is rejected before anything is sized, and with which reason.
  lemma RejectedBeforeSizing(input: EstimateInput, wall: Time)
    ensures EstimateOf(input, wall) == Rejected("empty_book") <==>
            input.longBook.asks == [] || input.shortBook.bids == []
    ensures EstimateOf(input, wall) == Rejected("missing_funding_window") <==>
            && input.longBook.asks != [] && input.shortBook.bids != []
            && (input.longFunding.nextFundingTime == 0 || input.shortFunding.nextFundingTime == 0)
    ensures EstimateOf(input, wall) == Rejected("invalid_price_or_quantity") <==>
            && input.longBook.asks != [] && input.shortBook.bids != []
            && input.longFunding.nextFundingTime != 0 && input.shortFunding.nextFundingTime != 0
            && !(&& input.longBook.asks[0].price > 0.0 && input.longBook.asks[0].quantity > 0.0
                 && input.shortBook.bids[0].price > 0.0 && input.shortBook.bids[0].quantity > 0.0)
  {
    hide TargetQuantity, Vwap, Priced;
    assert "empty_book"[0] == 'e' && "missing_funding_window"[0] == 'm' && "zero_quantity"[0] == 'z';
    assert "invalid_price_or_quantity"[2] == 'v' && "insufficient_long_depth"[2] == 's';
    assert "insufficient_short_depth"[2] == 's' && "carry_below_threshold"[0] == 'c';
    assert "net_profit_not_positive"[0] == 'n';
    assert "net_profit_pct_below_threshold"[0] == 'n' && "insufficient_long_depth"[0] == 'i';
    assert "insufficient_short_depth"[0] == 'i' && "invalid_price_or_quantity"[0] == 'i';
  }

  // What is rejected for want of depth.
  lemma RejectedForDepth(input: EstimateInput, wall: Time)
    requires Unpriceable(input).None?
    ensures var q, depth := TargetQuantity(input), DepthLimit(input.maxDepthLevels);
            && (EstimateOf(input, wall) == Rejected("zero_quantity") <==> q <= 0.0)
            && (EstimateOf(input, wall) == Rejected("insufficient_long_depth") <==>
                q > 0.0 && q > Total(UsableLevels(input.longBook.asks, depth)))
            && (EstimateOf(input, wall) == Rejected("insufficient_short_depth") <==>
                && q > 0.0 && q <= Total(UsableLevels(input.longBook.asks, depth))
                && q > Total(UsableLevels(input.shortBook.bids, depth)))
  {
    hide TargetQuantity, Priced, Cost, UsableLevels, Total;
    assert "insufficient_long_depth"[13] == 'l' && "insufficient_short_depth"[13] == 's' && "zero_quantity"[0] == 'z';
    assert "carry_below_threshold"[0] == 'c' && "net_profit_not_positive"[0] == 'n';
    assert "net_profit_pct_below_threshold"[0] == 'n' && "insufficient_long_depth"[0] == 'i';
    assert "insufficient_short_depth"[0] == 'i';
  }

  // What decides once both walks are priced: the three thresholds, in this order.
  lemma ThresholdsDecide(input: EstimateInput, wall: Time, q: real, long: real, short: real)
    requires Unpriceable(input).None? && q == TargetQuantity(input) > 0.0
    requires Vwap(input.longBook.asks, q, DepthLimit(input.maxDepthLevels)) == Some(long)
    requires Vwap(input.shortBook.bids, q, DepthLimit(input.maxDepthLevels)) == Some(short)
    ensures var net := input.shortFunding.predictedFundingPct - input.longFunding.predictedFundingPct;
            var carry := q * input.longFunding.markPrice * net / 100.0;
            var costs := q * long * input.longFeePct / 100.0 + q * short * input.shortFeePct / 100.0;
            var profit := carry - costs - costs - q * Max(long, short) * input.basisRiskPct / 100.0;
            if carry < input.minExpectedCarryUSD
            then EstimateOf(input, wall) == Rejected("carry_below_threshold")
            else if profit <= 0.0 then EstimateOf(input, wall) == Rejected("net_profit_not_positive")
            else if 100.0 * profit < input.minExpectedCarryPct * (q * Max(long, short))
            then EstimateOf(input, wall) == Rejected("net_profit_pct_below_threshold")
            else EstimateOf(input, wall).Accepted?
  {
    hide TargetQuantity, Vwap, NewOpportunityID, Notional;
    VwapIsPositive(input.longBook.asks, q, DepthLimit(input.maxDepthLevels));
    NotionalIs(q, long, short);
    var o := Priced(input, q, long, short, wall);
    QuotientAtLeast(o.expectedNetProfitUSD, Notional(q, long, short), input.minExpectedCarryPct);
  }
}
