/** Constructing runs: two books on which a given pair is the offer picked, and the step that opens it. */
module Staging {
  import opened Boards
  import opened Clock
  import opened Depth
  import opened Estimator
  import opened Exposure
  import opened Funding
  import opened Identifier
  import opened Lifecycle
  import opened Market
  import opened Positions
  import opened Profitability
  import opened Risk
  import opened Runs
  import opened Scan
  import opened Wrappers

  // Books of one level a side for a symbol on two exchanges: the long one asks one and bids bid, the
  // short one bids shortBid, both for size; a positive exit is what can be sold back on the long one and
  // bought back, at one, on the short one.  spare is an exchange that takes no part.  All is processed at
  // start, a funding time; early is a long book stamped just before it.
  datatype Stage = Stage(
    symbol: string, long: Name, short: Name, spare: Name, start: Time, early: bool,
    bid: real, shortBid: real, size: real, exit: real)

  function StageCarry(cfg: Config, g: Stage): real {
    Carry(g.size, (g.bid + 1.0) / 2.0, RouteRate(cfg, g.long, g.short))
  }

  function StageProfit(cfg: Config, g: Stage): real {
    var entry := EntryCost(g.size, 1.0, g.shortBid, TakerFeePct(cfg, g.long), TakerFeePct(cfg, g.short));
    StageCarry(cfg, g) - entry - entry - RiskBuffer(g.size, 1.0, g.shortBid, cfg.basisRiskPct)
  }

  function StageProfitPct(cfg: Config, g: Stage): real
    requires g.size > 0.0
  {
    StageProfit(cfg, g) / g.size * 100.0
  }

  function Abs(x: real): real { if x < 0.0 then 0.0 - x else x }

  // A bound on what a unit traded in the other direction can earn from negative costs.
  function ReverseGain(cfg: Config, g: Stage): real {
    (2.0 * Abs(TakerFeePct(cfg, g.short)) + 2.0 * g.bid * Abs(TakerFeePct(cfg, g.long))
     + Max(1.0, g.bid) * Abs(cfg.basisRiskPct)) / 100.0
  }

  // How far ahead of a step's book time a book must be stamped to count as fresh.
  function Lead(cfg: Config): nat {
    var age: int := cfg.maxOrderBookAge;
    if age < 0 then -age else 0
  }

  // The exchanges can meet, and the times fit the configuration.
  ghost predicate Placed(cfg: Config, g: Stage) {
    && g.long != g.short && Files(cfg, g.long, g.symbol) && Files(cfg, g.short, g.symbol)
    && (Lead(cfg) > 0 ==> Bystander(cfg, g.symbol, g.long, g.short, g.spare))
    && cfg.minTimeToFunding <= Interval(cfg)
    && g.start % Interval(cfg) == 0 && g.start > Lead(cfg) + 1
    && (g.early ==> cfg.maxOrderBookAge > 0 && cfg.minTimeToFunding <= 0)
  }

  // The stage's numbers pass every threshold of the configuration, and beat the other direction's.
  ghost predicate Profitable(cfg: Config, g: Stage) {
    && RouteRate(cfg, g.long, g.short) > 0.0
    && g.bid > 0.0 && 0.0 < g.shortBid <= 1.0 && g.size > 0.0
    && (cfg.maxTradeUSD > 0.0 ==> g.size <= cfg.maxTradeUSD)
    && StageCarry(cfg, g) >= cfg.minExpectedCarryUSD
    && StageProfit(cfg, g) > 0.0 && StageProfit(cfg, g) >= cfg.minProfitUSD
    && StageProfitPct(cfg, g) >= cfg.minExpectedCarryPct && StageProfitPct(cfg, g) >= cfg.minProfitPct
    && (g.exit > 0.0 ==> g.exit * ReverseGain(cfg, g) <= StageProfit(cfg, g))
  }

  ghost predicate Fruitful(cfg: Config, g: Stage) {
    Placed(cfg, g) && Profitable(cfg, g)
  }

  /* ---------- Times ---------- */

  // When the long book is stamped, and the funding time the pair is aimed at.
  function Stamp(g: Stage): Time { if g.early then g.start - 1 else g.start }

  function Target(cfg: Config, g: Stage): Time { if g.early then g.start else g.start + Interval(cfg) }

  function Later(cfg: Config, g: Stage): Time { g.start + if cfg.maxHoldTime > 0 then cfg.maxHoldTime else 0 }

  lemma WindowBefore(t: Time, interval: Duration)
    requires interval > 0 && t > 1 && t % interval == 0
    ensures NextFundingWindow(t - 1, interval, 0) == t && NextFundingWindow(t, interval, 0) == t + interval
  {
    NextWindowIsLeastMultipleAfter(t - 1, interval, 0);
    assert IsMultiple(t, interval);
  }

  // The wall reading matters only to a book without a time.
  lemma StageWindows(cfg: Config, g: Stage, wall: Time)
    requires Placed(cfg, g)
    ensures NextFundingWindow(Stamp(g), Interval(cfg), wall) == Target(cfg, g)
    ensures NextFundingWindow(g.start, Interval(cfg), wall) == g.start + Interval(cfg)
  {
    hide Files;
    WindowBefore(g.start, Interval(cfg));
  }

  /* ---------- Books and events ---------- */

  function LongBook(g: Stage): OrderBook {
    OrderBook(g.long, g.symbol, [Level(g.bid, if g.exit > 0.0 then g.exit else g.size)], [Level(1.0, g.size)], Stamp(g))
  }

  function ShortBook(g: Stage): OrderBook {
    var asks := if g.exit > 0.0 then [Level(1.0, g.exit)] else [];
    OrderBook(g.short, g.symbol, [Level(g.shortBid, g.size)], asks, g.start)
  }

  function SpareBook(cfg: Config, g: Stage): OrderBook {
    OrderBook(g.spare, g.symbol, [], [], g.start - Lead(cfg))
  }

  // The short exchange's book once it can be bought back there.
  function ExitBook(cfg: Config, g: Stage): OrderBook {
    OrderBook(g.short, g.symbol, [Level(g.shortBid, g.size)], [Level(1.0, g.size)], Later(cfg, g))
  }

  function At(book: OrderBook, wall: Time): Event { Event(book, wall, wall, wall, wall, false, {}) }

  function LongEvent(g: Stage): Event { At(LongBook(g), g.start) }

  function ShortEvent(g: Stage): Event { At(ShortBook(g), g.start) }

  function SpareEvent(cfg: Config, g: Stage): Event { At(SpareBook(cfg, g), g.start) }

  function ExitEvent(cfg: Config, g: Stage): Event { At(ExitBook(cfg, g), Later(cfg, g)) }

  // The updates up to the opening: when no book stamped in the past is fresh, an older one must trigger it.
  function OpeningEvents(cfg: Config, g: Stage): seq<Event> {
    if Lead(cfg) == 0 then [LongEvent(g)] + [ShortEvent(g)]
    else [LongEvent(g)] + [ShortEvent(g)] + [SpareEvent(cfg, g)]
  }

  /* ---------- The feed ---------- */

  // What the connectors could send after since, sorted, uncrossed if asked for, and processed by wall.
  ghost predicate StageFeed(cfg: Config, events: seq<Event>, since: Time, uncrossed: bool, wall: Time) {
    && GoodFeed(events) && InOrder(events) && Every(events, Delivered(cfg, since))
    && Every(events, AsksOrdered) && Every(events, BidsOrdered) && (uncrossed ==> Every(events, Uncrossed))
    && forall i :: 0 <= i < |events| ==> events[i].finishedAt <= wall
  }

  // An update that such a feed may end with.
  ghost predicate StageEvent(cfg: Config, e: Event, since: Time, uncrossed: bool) {
    && GoodEvent(e) && Delivered(cfg, since)(e.update)
    && AsksOrdered(e.update) && BidsOrdered(e.update) && (uncrossed ==> Uncrossed(e.update))
  }

  // No book of that exchange is stamped later.
  ghost predicate NoneLater(events: seq<Event>, name: Name, time: Time) {
    forall i :: 0 <= i < |events| && events[i].update.exchange == name ==> events[i].update.updatedAt <= time
  }

  lemma FeedExtends(cfg: Config, events: seq<Event>, since: Time, uncrossed: bool, wall: Time, e: Event)
    requires StageFeed(cfg, events, since, uncrossed, wall) && StageEvent(cfg, e, since, uncrossed) && wall <= e.wall
    requires NoneLater(events, e.update.exchange, e.update.updatedAt)
    ensures StageFeed(cfg, events + [e], since, uncrossed, e.finishedAt)
  {
    hide FeedBook, AsksOrdered, BidsOrdered, Uncrossed, Delivered;
    var all := events + [e];
    assert forall i :: 0 <= i < |events| ==> all[i] == events[i];
  }

  lemma NoneLaterExtends(events: seq<Event>, e: Event, name: Name, time: Time)
    requires NoneLater(events, name, time) && (e.update.exchange == name ==> e.update.updatedAt <= time)
    ensures NoneLater(events + [e], name, time)
  {
  }

  // What came before leaves room for the stage's stamps.
  ghost predicate Precedes(cfg: Config, events: seq<Event>, g: Stage) {
    && NoneLater(events, g.long, Stamp(g)) && NoneLater(events, g.short, g.start)
    && NoneLater(events, g.spare, g.start - Lead(cfg))
  }

  lemma FilesIsKnown(cfg: Config, name: Name, symbol: string)
    requires Files(cfg, name, symbol)
    ensures KnownExchange(name) && name in cfg.connectors
  {
  }

  lemma StageEventsAreGood(cfg: Config, g: Stage, since: Time)
    requires Fruitful(cfg, g) && since < g.start - Lead(cfg) - 1
    ensures StageEvent(cfg, LongEvent(g), since, g.bid <= 1.0)
    ensures StageEvent(cfg, ShortEvent(g), since, g.bid <= 1.0)
    ensures Lead(cfg) > 0 ==> StageEvent(cfg, SpareEvent(cfg, g), since, g.bid <= 1.0)
    ensures StageEvent(cfg, ExitEvent(cfg, g), since, g.bid <= 1.0)
  {
    hide StageCarry, StageProfit, StageProfitPct, RouteRate, ReverseGain, Files;
    FilesIsKnown(cfg, g.long, g.symbol);
    FilesIsKnown(cfg, g.short, g.symbol);
    if Lead(cfg) > 0 {
      FilesIsKnown(cfg, g.spare, g.symbol);
    }
  }

  lemma StageTimes(cfg: Config, g: Stage)
    ensures LongEvent(g).wall == LongEvent(g).finishedAt == g.start
    ensures ShortEvent(g).wall == ShortEvent(g).finishedAt == g.start
    ensures SpareEvent(cfg, g).wall == SpareEvent(cfg, g).finishedAt == g.start
    ensures ExitEvent(cfg, g).wall == ExitEvent(cfg, g).finishedAt == ExitEvent(cfg, g).update.updatedAt
    ensures ExitEvent(cfg, g).wall == Later(cfg, g) >= g.start
    ensures LongEvent(g).update.exchange == g.long && LongEvent(g).update.updatedAt == Stamp(g) <= g.start
    ensures ShortEvent(g).update.exchange == g.short && ShortEvent(g).update.updatedAt == g.start
    ensures SpareEvent(cfg, g).update.exchange == g.spare && SpareEvent(cfg, g).update.updatedAt == g.start - Lead(cfg)
    ensures ExitEvent(cfg, g).update.exchange == g.short
  {
  }

  lemma LaterIsLater(events: seq<Event>, name: Name, time: Time, later: Time)
    requires NoneLater(events, name, time) && time <= later
    ensures NoneLater(events, name, later)
  {
  }

  // The stage's updates continue such a feed, uncrossed when the long book is.
  lemma FeedIsGood(cfg: Config, g: Stage, before: seq<Event>, since: Time)
    requires Fruitful(cfg, g) && since < g.start - Lead(cfg) - 1
    requires StageFeed(cfg, before, since, g.bid <= 1.0, g.start) && Precedes(cfg, before, g)
    ensures StageFeed(cfg, before + [LongEvent(g)], since, g.bid <= 1.0, g.start)
    ensures StageFeed(cfg, before + [LongEvent(g)] + [ShortEvent(g)], since, g.bid <= 1.0, g.start)
    ensures StageFeed(cfg, before + OpeningEvents(cfg, g), since, g.bid <= 1.0, g.start)
    ensures NoneLater(before + OpeningEvents(cfg, g), g.short, g.start)
    ensures StageFeed(cfg, before + OpeningEvents(cfg, g) + [ExitEvent(cfg, g)], since, g.bid <= 1.0, Later(cfg, g))
  {
    StageEventsAreGood(cfg, g, since);
    StageTimes(cfg, g);
    var u, e1, e2, e3 := g.bid <= 1.0, LongEvent(g), ShortEvent(g), SpareEvent(cfg, g);
    assert g.long != g.short && (Lead(cfg) > 0 ==> g.spare != g.long && g.spare != g.short);
    hide StageFeed, StageEvent, Fruitful, Later, NoneLater, LongEvent, ShortEvent, SpareEvent, ExitEvent, Stamp;
    var two := before + [e1] + [e2];
    FeedExtends(cfg, before, since, u, g.start, e1);
    NoneLaterExtends(before, e1, g.short, g.start);
    FeedExtends(cfg, before + [e1], since, u, g.start, e2);
    NoneLaterExtends(before + [e1], e2, g.short, g.start);
    assert before + ([e1] + [e2]) == two;
    if Lead(cfg) > 0 {
      NoneLaterExtends(before, e1, g.spare, g.start - Lead(cfg));
      NoneLaterExtends(before + [e1], e2, g.spare, g.start - Lead(cfg));
      FeedExtends(cfg, two, since, u, g.start, e3);
      NoneLaterExtends(two, e3, g.short, g.start);
      assert before + ([e1] + [e2] + [e3]) == two + [e3];
    }
    LaterIsLater(before + OpeningEvents(cfg, g), g.short, g.start, Later(cfg, g));
    FeedExtends(cfg, before + OpeningEvents(cfg, g), since, u, g.start, ExitEvent(cfg, g));
  }

  /* ---------- The offer ---------- */

  lemma OneLevel(level: Level, q: real, depth: int)
    requires Usable(level) && 0.0 < q <= level.quantity && depth > 0
    ensures QuantitySum([level], depth) == level.quantity
    ensures Vwap([level], q, depth) == Some(level.price)
  {
    hide Pay, Average;
    var u := UsableLevels([level], depth);
    assert [level][1..] == [];
    assert UsableLevels([], depth - 1) == [];
    assert u == [level] + [] == [level];
    assert Total(u) == level.quantity + Total([]) == level.quantity;
    CostStep(u, q);
    assert Cost(u[1..], 0.0) == 0.0;
    AveragePay(q, level.price);
  }

  ghost predicate OthersEmpty(g: Stage, b: Board) {
    forall name :: name in b.books && name != g.long && name != g.short ==>
                     b.books[name].bids == [] && b.books[name].asks == []
  }

  // Both books are there, and no other exchange has anything on its book.
  ghost predicate StagedBoard(cfg: Config, g: Stage, b: Board) {
    && b.symbol == g.symbol && b.wall == g.start && b.now == g.start - Lead(cfg)
    && g.long in b.books && b.books[g.long] == LongBook(g)
    && g.short in b.books && b.books[g.short] == ShortBook(g)
    && OthersEmpty(g, b)
  }

  lemma StagedFunding(cfg: Config, g: Stage, b: Board)
    requires GoodBoard(cfg, b) && StagedBoard(cfg, g, b) && Placed(cfg, g) && g.bid > 0.0
    ensures g.long in b.funding && g.short in b.funding
    ensures b.funding[g.long].markPrice == (g.bid + 1.0) / 2.0
    ensures b.funding[g.long].nextFundingTime == Target(cfg, g)
    ensures b.funding[g.short].nextFundingTime == g.start + Interval(cfg)
  {
    hide SyntheticRate, FeedBook, NextFundingWindow, Files, OthersEmpty;
    StageWindows(cfg, g, Stamp(g));
    StageWindows(cfg, g, g.start);
  }

  lemma StagedPairIsQuoted(cfg: Config, g: Stage, b: Board)
    requires GoodBoard(cfg, b) && StagedBoard(cfg, g, b) && Placed(cfg, g)
    ensures Quoted(cfg, b, g.long) && Quoted(cfg, b, g.short)
  {
    hide SyntheticSnapshot, Files, OthersEmpty, FeedBook;
  }

  lemma StagedInput(cfg: Config, g: Stage, b: Board)
    requires GoodBoard(cfg, b) && StagedBoard(cfg, g, b) && Fruitful(cfg, g)
    ensures g.long in b.books && g.short in b.books && g.long in b.funding && g.short in b.funding
    ensures var input := InputFor(cfg, b, g.long, g.short);
            && Unpriceable(input).None? && TargetQuantity(input) == g.size
            && Vwap(input.longBook.asks, g.size, DepthLimit(input.maxDepthLevels)) == Some(1.0)
            && Vwap(input.shortBook.bids, g.size, DepthLimit(input.maxDepthLevels)) == Some(g.shortBid)
  {
    hide GoodBoard, Vwap, QuantitySum, RouteRate, StageCarry;
    hide StageProfit, StageProfitPct, Files, OthersEmpty, ReverseGain;
    StagedFunding(cfg, g, b);
    var input := InputFor(cfg, b, g.long, g.short);
    OneLevel(Level(1.0, g.size), g.size, DepthLimit(input.maxDepthLevels));
    OneLevel(Level(g.shortBid, g.size), g.size, DepthLimit(input.maxDepthLevels));
    assert Max(1.0, g.shortBid) == 1.0 && cfg.maxTradeUSD / 1.0 == cfg.maxTradeUSD;
  }

  lemma UnitNotional(q: real, short: real)
    requires short <= 1.0
    ensures Notional(q, 1.0, short) == q
  {
  }

  lemma StagedPrice(cfg: Config, g: Stage, b: Board)
    requires GoodBoard(cfg, b) && StagedBoard(cfg, g, b) && Fruitful(cfg, g)
    requires g.long in b.books && g.short in b.books && g.long in b.funding && g.short in b.funding
    ensures var o := Priced(InputFor(cfg, b, g.long, g.short), g.size, 1.0, g.shortBid, b.wall);
            && o.quantity == g.size && o.longEntryPrice == 1.0
            && o.expectedCarryUSD == StageCarry(cfg, g)
            && o.expectedNetProfitUSD == StageProfit(cfg, g)
            && o.expectedNetProfitPct == StageProfitPct(cfg, g)
            && o.targetFundingTime == Target(cfg, g)
  {
    hide GoodBoard, RouteRate, Carry, EntryCost;
    hide RiskBuffer, Files, OthersEmpty, NewOpportunityID, ReverseGain;
    StagedFunding(cfg, g, b);
    RouteRateOnBoard(cfg, b, g.long, g.short);
    UnitNotional(g.size, g.shortBid);
  }

  lemma EstimateIsPriced(input: EstimateInput, q: real, shortBid: real, wall: Time)
    requires Unpriceable(input).None? && TargetQuantity(input) == q > 0.0
    requires Vwap(input.longBook.asks, q, DepthLimit(input.maxDepthLevels)) == Some(1.0)
    requires Vwap(input.shortBook.bids, q, DepthLimit(input.maxDepthLevels)) == Some(shortBid)
    requires Unprofitable(input, Priced(input, q, 1.0, shortBid, wall)).None?
    ensures EstimateOf(input, wall) == Accepted(Priced(input, q, 1.0, shortBid, wall))
  {
    hide Vwap, TargetQuantity, Priced;
  }

  // The staged pair is offered, with the stage's numbers.
  lemma StagedOffer(cfg: Config, g: Stage, b: Board)
    requires GoodBoard(cfg, b) && StagedBoard(cfg, g, b) && Fruitful(cfg, g)
    ensures Offer(cfg, b, g.long, g.short).Some?
    ensures var o := Offer(cfg, b, g.long, g.short).value;
            && o.quantity == g.size && o.longEntryPrice == 1.0
            && o.expectedCarryUSD == StageCarry(cfg, g)
            && o.expectedNetProfitUSD == StageProfit(cfg, g)
            && o.expectedNetProfitPct == StageProfitPct(cfg, g)
            && o.targetFundingTime == Target(cfg, g)
  {
    hide GoodBoard, Vwap, TargetQuantity, Priced, RouteRate, StageCarry, StageProfit, StageProfitPct, Quoted;
    hide StagedBoard, EstimateOf, Files, ReverseGain;
    StagedInput(cfg, g, b);
    StagedPrice(cfg, g, b);
    StagedPairIsQuoted(cfg, g, b);
    EstimateIsPriced(InputFor(cfg, b, g.long, g.short), g.size, g.shortBid, b.wall);
  }

  // Only an exchange with asks can be bought on, and only one with bids sold on.
  lemma OffersNeedLevels(cfg: Config, b: Board, long: Name, short: Name)
    requires Offer(cfg, b, long, short).Some?
    ensures long != short && long in b.books && short in b.books
    ensures b.books[long].asks != [] && b.books[short].bids != []
  {
    hide TargetQuantity, Vwap, Priced;
  }

  lemma AbsBounds(x: real)
    ensures 0.0 - Abs(x) <= x <= Abs(x) && Abs(x) >= 0.0
  {
  }

  lemma ScaledByAbs(k: real, x: real)
    requires k >= 0.0
    ensures 0.0 - k * x <= k * Abs(x) && k * Abs(x) >= 0.0
  {
    AbsBounds(x);
    ScaleUp(k, 0.0 - x, Abs(x));
    ScaleUp(k, 0.0, Abs(x));
  }

  lemma CostsAtOne(q: real, bid: real, longFee: real, shortFee: real, basis: real)
    ensures var entry := EntryCost(q, 1.0, bid, shortFee, longFee);
            entry + entry + RiskBuffer(q, 1.0, bid, basis) ==
            q * (2.0 * shortFee + 2.0 * (bid * longFee) + Max(1.0, bid) * basis) / 100.0
  {
    hide Max;
  }

  // A loss on the carry, and no more than a share of the gain from negative costs.
  lemma NoMoreThanTheGain(q: real, exit: real, carry: real, cost: real, gain: real, profit: real)
    requires 0.0 < q <= exit && carry <= 0.0 && 0.0 - cost <= gain && gain >= 0.0
    requires profit == carry - q * cost / 100.0
    ensures profit <= exit * (gain / 100.0)
  {
    ScaleUp(q, 0.0 - cost, gain);
    ScaleUp(gain, q, exit);
  }

  lemma LosingCarry(q: real, mark: real, net: real)
    requires q > 0.0 && mark > 0.0 && net <= 0.0
    ensures Carry(q, mark, net) <= 0.0
  {
    FeeSign(q, mark);
    ScaleUp(q * mark, net, 0.0);
  }

  // What negative costs can add to a loss on the carry.
  lemma ReverseEarnsLittle(
      q: real, exit: real, mark: real, net: real, bid: real, longFee: real, shortFee: real, basis: real)
    requires 0.0 < q <= exit && mark > 0.0 && net <= 0.0 && bid > 0.0
    ensures var entry := EntryCost(q, 1.0, bid, shortFee, longFee);
            Carry(q, mark, net) - entry - entry - RiskBuffer(q, 1.0, bid, basis) <=
            exit * ((2.0 * Abs(shortFee) + 2.0 * bid * Abs(longFee) + Max(1.0, bid) * Abs(basis)) / 100.0)
  {
    var cost := 2.0 * shortFee + 2.0 * (bid * longFee) + Max(1.0, bid) * basis;
    var gain := 2.0 * Abs(shortFee) + 2.0 * bid * Abs(longFee) + Max(1.0, bid) * Abs(basis);
    AbsBounds(shortFee);
    ScaledByAbs(bid, longFee);
    ScaledByAbs(Max(1.0, bid), basis);
    CostsAtOne(q, bid, longFee, shortFee, basis);
    LosingCarry(q, mark, net);
    hide Abs, Max, EntryCost, RiskBuffer, Carry;
    var entry := EntryCost(q, 1.0, bid, shortFee, longFee);
    var profit := Carry(q, mark, net) - entry - entry - RiskBuffer(q, 1.0, bid, basis);
    assert 2.0 * bid * Abs(longFee) == 2.0 * (bid * Abs(longFee));
    NoMoreThanTheGain(q, exit, Carry(q, mark, net), cost, gain, profit);
  }

  // The other direction is limited to the exit, and earns no more than the stage.
  lemma ReverseIsNoBetter(cfg: Config, g: Stage, b: Board)
    requires GoodBoard(cfg, b) && StagedBoard(cfg, g, b) && Fruitful(cfg, g) && g.exit > 0.0
    requires Offer(cfg, b, g.short, g.long).Some?
    ensures Offer(cfg, b, g.short, g.long).value.expectedNetProfitUSD <= StageProfit(cfg, g)
  {
    hide GoodBoard, EstimateOf, Vwap, QuantitySum, RouteRate, StageCarry, StageProfit, StageProfitPct;
    hide Files, Carry, EntryCost, RiskBuffer, Notional, OthersEmpty, NewOpportunityID, Max, Abs, MarkPrice, FeedBook;
    OfferInput(cfg, b, g.short, g.long);
    OfferFacts(cfg, b, g.short, g.long);
    var input, o := InputFor(cfg, b, g.short, g.long), Offer(cfg, b, g.short, g.long).value;
    var depth := DepthLimit(input.maxDepthLevels);
    AcceptedIsPriced(input, b.wall);
    hide Offer;
    var ask, bid := Level(1.0, g.exit), Level(g.bid, g.exit);
    MaxIsUpperBound(1.0, g.bid);
    assert input.longBook.asks == [ask] && input.shortBook.bids == [bid];
    OneLevel(ask, g.exit, depth);
    OneLevel(bid, g.exit, depth);
    UpToMinimum(o.quantity, g.exit, g.exit, input.maxNotional / Max(1.0, g.bid));
    OneLevel(ask, o.quantity, depth);
    OneLevel(bid, o.quantity, depth);
    SomeDirectionCarries(cfg, g.long, g.short);
    ReverseEarnsLittle(o.quantity, g.exit, input.longFunding.markPrice, o.netFundingRatePct, g.bid,
                       TakerFeePct(cfg, g.long), TakerFeePct(cfg, g.short), cfg.basisRiskPct);
  }

  // So the staged pair is the one to pick.
  lemma StagedPairIsBest(cfg: Config, g: Stage, b: Board)
    requires GoodBoard(cfg, b) && StagedBoard(cfg, g, b) && Fruitful(cfg, g)
    ensures IsBest(cfg, b, Offer(cfg, b, g.long, g.short))
  {
    hide Offer, GoodBoard, Fruitful;
    StagedOffer(cfg, g, b);
    forall long, short | Offer(cfg, b, long, short).Some?
      ensures Offer(cfg, b, long, short).value.expectedNetProfitUSD <= StageProfit(cfg, g)
    {
      OffersNeedLevels(cfg, b, long, short);
      if long != g.long || short != g.short {
        ReverseIsNoBetter(cfg, g, b);
      }
    }
  }

  lemma PayOne(q: real)
    ensures Pay(q, 1.0) == q
  {
  }

  lemma GateOpens(cfg: Config, g: Stage, o: Opportunity)
    requires Fruitful(cfg, g)
    requires o.quantity == g.size && o.longEntryPrice == 1.0
    requires o.expectedNetProfitUSD == StageProfit(cfg, g) && o.expectedNetProfitPct == StageProfitPct(cfg, g)
    requires o.longExchange != o.shortExchange && o.netFundingRatePct > 0.0
    requires o.targetFundingTime == Target(cfg, g)
    ensures Approves(RiskOf(cfg), false, o, g.start)
  {
    hide StageProfit, StageProfitPct, StageCarry, Pay, RouteRate, Sub, Files, ReverseGain;
    SubComparesPositive(o.targetFundingTime, g.start, cfg.minTimeToFunding);
    PayOne(g.size);
  }

  /* ---------- Opening ---------- */

  // The staged position as it is opened.
  ghost predicate Staged(cfg: Config, g: Stage, p: Position) {
    && p.symbol == g.symbol && p.longLeg.exchange == g.long && p.shortLeg.exchange == g.short
    && p.id == NewOpportunityID(g.symbol, g.long, g.short, g.start - Lead(cfg))
    && p.openedAt == g.start && p.targetFundingTime == Target(cfg, g)
    && p.expectedCarryUSD > 0.0
  }

  lemma CarryIsPositive(cfg: Config, g: Stage)
    requires Profitable(cfg, g)
    ensures StageCarry(cfg, g) > 0.0
  {
    hide RouteRate, StageProfit, StageProfitPct, ReverseGain;
    FeeSign(g.size, (g.bid + 1.0) / 2.0);
    FeeSign(g.size * ((g.bid + 1.0) / 2.0), RouteRate(cfg, g.long, g.short));
  }

  ghost predicate NoneOpen(l: Ledger, symbol: string) {
    forall id :: id in l.open ==> l.open[id].symbol != symbol
  }

  lemma StagedOfferIsAdmitted(cfg: Config, g: Stage, b: Board, l: Ledger, book: OrderBook)
    requires GoodBoard(cfg, b) && StagedBoard(cfg, g, b) && Fruitful(cfg, g) && NoneOpen(l, g.symbol)
    ensures var best, e := Offer(cfg, b, g.long, g.short), At(book, g.start);
            && best.Some? && Admits(cfg, l, best, e)
            && Staged(cfg, g, PositionFrom(best.value, g.start, g.start))
  {
    hide GoodBoard, Offer, StageCarry, StageProfit;
    hide StageProfitPct, RouteRate, Approves, NewOpportunityID, ReverseGain, Files;
    StagedOffer(cfg, g, b);
    OfferFacts(cfg, b, g.long, g.short);
    CarryIsPositive(cfg, g);
    FilesIsKnown(cfg, g.long, g.symbol);
    FilesIsKnown(cfg, g.short, g.symbol);
    GateOpens(cfg, g, Offer(cfg, b, g.long, g.short).value);
  }

  // The stored books of a symbol.
  ghost predicate Stocked(s: State, symbol: string, books: map<Name, OrderBook>) {
    EntriesOf(s.books, symbol) == books
  }

  lemma StockedIgnoresLedger(s: State, t: State, symbol: string, books: map<Name, OrderBook>)
    requires Stocked(s, symbol, books) && t.books == s.books
    ensures Stocked(t, symbol, books)
  {
  }

  lemma NextBoard(cfg: Config, run: seq<Tick>, books: map<Name, OrderBook>, e: Event)
    requires IsRun(cfg, run) && GoodFeed(EventsOf(run)) && GoodFeed(EventsOf(run) + [e])
    requires Stocked(After(cfg, run), e.update.symbol, books)
    ensures var b := StepBoard(cfg, After(cfg, run), e);
            && GoodBoard(cfg, b) && b.symbol == e.update.symbol && b.wall == e.wall && b.now == e.update.updatedAt
            && b.books == books[e.update.exchange := e.update]
            && Stocked(Applied(cfg, After(cfg, run), e), e.update.symbol, b.books)
  {
    hide GoodBoard, GoodState, SyntheticSnapshot, Legal, Step, GoodEvent, IsRun;
    RunIsGood(cfg, run);
    var events := EventsOf(run) + [e];
    assert GoodEvent(events[|run|]);
    if run == [] {
      InitialIsGood(cfg, e.wall);
      StepBoardIsGood(cfg, After(cfg, run), e, e.wall);
    } else {
      assert events[|run| - 1] == run[|run| - 1].event;
      StepBoardIsGood(cfg, After(cfg, run), e, LastReading(run));
    }
  }

  // A step without offers, on a symbol without positions, changes nothing but the books.
  lemma QuietStep(cfg: Config, run: seq<Tick>, books: map<Name, OrderBook>, e: Event) returns (next: seq<Tick>)
    requires IsRun(cfg, run) && GoodFeed(EventsOf(run) + [e]) && GoodFeed(EventsOf(run))
    requires Stocked(After(cfg, run), e.update.symbol, books) && NoneOpen(After(cfg, run).ledger, e.update.symbol)
    requires forall long, short :: Offer(cfg, StepBoard(cfg, After(cfg, run), e), long, short).None?
    ensures IsRun(cfg, next) && EventsOf(next) == EventsOf(run) + [e]
    ensures Stocked(After(cfg, next), e.update.symbol, books[e.update.exchange := e.update])
    ensures After(cfg, next).ledger == After(cfg, run).ledger
  {
    hide GoodBoard, GoodFeed, Offer, SyntheticSnapshot, Applied, BoardOf, IsRun, Stocked;
    NextBoard(cfg, run, books, e);
    var s := After(cfg, run);
    hide After;
    var tick := Tick(e, Choice(None, []));
    next := run + [tick];
    RunExtends(cfg, run, tick);
    StockedIgnoresLedger(Applied(cfg, s, e), After(cfg, next), e.update.symbol, books[e.update.exchange := e.update]);
  }

  lemma RefreshedAlone(b: Board, l: Ledger, p: Position, maxHold: Duration)
    ensures RefreshAll(b, l, [p], maxHold) == RefreshOne(b, l, p, maxHold)
  {
    hide RefreshOne;
    assert [p][..0] == [];
  }

  // Without an exit the position cannot be left yet.
  lemma CannotLeaveYet(cfg: Config, g: Stage, b: Board, p: Position)
    requires StagedBoard(cfg, g, b) && Staged(cfg, g, p) && g.exit <= 0.0
    ensures Refreshed(b, p, cfg.maxHoldTime) == Skipped
  {
    hide OthersEmpty, NewOpportunityID;
    assert b.books[g.short].asks == [];
  }

  lemma ListsOne(l: Ledger, p: Position)
    requires NoneOpen(l, p.symbol)
    ensures Lists(l.Add(p).open, p.symbol, [p])
  {
  }

  // The board of a run's last step.
  ghost function LastBoard(cfg: Config, run: seq<Tick>): Board
    requires run != []
  {
    StepBoard(cfg, After(cfg, run[..|run| - 1]), run[|run| - 1].event)
  }

  // The staged pair opens, and without an exit the position stays open.
  lemma OpeningStep(cfg: Config, g: Stage, run: seq<Tick>, books: map<Name, OrderBook>, e: Event)
      returns (next: seq<Tick>)
    requires Fruitful(cfg, g) && IsRun(cfg, run) && GoodFeed(EventsOf(run) + [e]) && GoodFeed(EventsOf(run))
    requires Stocked(After(cfg, run), g.symbol, books) && NoneOpen(After(cfg, run).ledger, g.symbol)
    requires e.update.symbol == g.symbol && e == At(e.update, g.start)
    requires StagedBoard(cfg, g, StepBoard(cfg, After(cfg, run), e))
    ensures IsRun(cfg, next) && EventsOf(next) == EventsOf(run) + [e] && next != []
    ensures StagedBoard(cfg, g, LastBoard(cfg, next))
    ensures Opens(cfg, next) && Staged(cfg, g, Opened(next))
    ensures Stocked(After(cfg, next), g.symbol, books[e.update.exchange := e.update])
    ensures g.exit <= 0.0 ==> After(cfg, next).ledger == After(cfg, run).ledger.Add(Opened(next))
  {
    hide Fruitful, GoodBoard, GoodFeed, Offer, IsBest, Admits;
    hide IsRun, SyntheticSnapshot, Applied, BoardOf, Refreshed;
    hide Stocked, After;
    NextBoard(cfg, run, books, e);
    var s := After(cfg, run);
    var b := StepBoard(cfg, s, e);
    StagedPairIsBest(cfg, g, b);
    StagedOfferIsAdmitted(cfg, g, b, s.ledger, e.update);
    var best := Offer(cfg, b, g.long, g.short);
    var p := PositionFrom(best.value, g.start, g.start);
    if g.exit <= 0.0 {
      CannotLeaveYet(cfg, g, b, p);
    }
    var admitted := Admit(cfg, s.ledger, best, e);
    assert admitted == s.ledger.Add(p);
    ListsOne(s.ledger, p);
    RefreshedAlone(b, admitted, p, cfg.maxHoldTime);
    var tick := Tick(e, Choice(best, [p]));
    hide PositionFrom, RefreshAll, Admit, StagedBoard, Staged;
    next := run + [tick];
    assert next[..|run|] == run;
    RunExtends(cfg, run, tick);
    StockedIgnoresLedger(Applied(cfg, s, e), After(cfg, next), g.symbol, books[e.update.exchange := e.update]);
  }
}
