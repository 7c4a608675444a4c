/** What a run did, told in its updates and the stored books alone: what the stores hold, what a step opens
    and at which carry, what it keeps and marks, what it closes and with which profit. */
module Outcomes {
  import opened Boards
  import opened Clock
  import opened Depth
  import opened Estimator
  import opened Exposure
  import opened Funding
  import opened Identifier
  import opened Lifecycle
  import opened Market
  import opened Positions
  import opened Profitability
  import opened Refresh
  import opened Risk
  import opened Runs
  import opened Scan
  import opened Wrappers

  /* ---------- The stores ---------- */

  ghost predicate Concerns(e: Event, symbol: string, name: Name) {
    e.update.symbol == symbol && e.update.exchange == name
  }

  // Event i is the latest of that symbol and exchange.
  ghost predicate LatestOf(events: seq<Event>, symbol: string, name: Name, i: nat) {
    && i < |events| && Concerns(events[i], symbol, name)
    && forall j :: i < j < |events| ==> !Concerns(events[j], symbol, name)
  }

  ghost predicate HasBook(s: State, symbol: string, name: Name) {
    symbol in s.books && name in s.books[symbol]
  }

  ghost predicate HasFunding(s: State, symbol: string, name: Name) {
    symbol in s.funding && name in s.funding[symbol]
  }

  lemma StoredByStep(cfg: Config, s: State, e: Event, symbol: string, name: Name)
    ensures var t := Applied(cfg, s, e);
            && (HasBook(t, symbol, name) <==> Concerns(e, symbol, name) || HasBook(s, symbol, name))
            && (HasFunding(t, symbol, name) <==> Concerns(e, symbol, name) || HasFunding(s, symbol, name))
            && (Concerns(e, symbol, name) ==>
                  && t.books[symbol][name] == e.update
                  && t.funding[symbol][name] == SyntheticSnapshot(e.update, WithDefaults(cfg.funding), e.wall))
            && (!Concerns(e, symbol, name) && HasBook(s, symbol, name) ==>
                  t.books[symbol][name] == s.books[symbol][name])
            && (!Concerns(e, symbol, name) && HasFunding(s, symbol, name) ==>
                  t.funding[symbol][name] == s.funding[symbol][name])
  {
    hide SyntheticSnapshot;
  }

  ghost predicate Mentions(events: seq<Event>, symbol: string, name: Name) {
    exists i :: 0 <= i < |events| && Concerns(events[i], symbol, name)
  }

  lemma OneMoreEvent(events: seq<Event>, e: Event, symbol: string, name: Name)
    ensures Mentions(events + [e], symbol, name) <==> Concerns(e, symbol, name) || Mentions(events, symbol, name)
    ensures forall i: nat :: LatestOf(events + [e], symbol, name, i) <==>
              if Concerns(e, symbol, name) then i == |events| else LatestOf(events, symbol, name, i)
  {
    hide Concerns;
    var all := events + [e];
    assert all[|events|] == e;
    if Mentions(events, symbol, name) {
      var i :| 0 <= i < |events| && Concerns(events[i], symbol, name);
      assert Concerns(all[i], symbol, name);
    }
    forall i: nat
      ensures LatestOf(all, symbol, name, i) <==>
              if Concerns(e, symbol, name) then i == |events| else LatestOf(events, symbol, name, i)
    {
      assert forall j :: 0 <= j < |events| ==> all[j] == events[j];
    }
  }

  lemma NothingMentioned(symbol: string, name: Name)
    ensures !Mentions([], symbol, name)
  {
  }

  lemma LatestIsMentioned(events: seq<Event>, symbol: string, name: Name, i: nat)
    requires LatestOf(events, symbol, name, i)
    ensures Mentions(events, symbol, name) && i < |events|
  {
    hide Concerns;
  }

  // In every run, whatever its feed: a book and its funding are stored for exactly the symbols and exchanges
  // that sent an update, and they are those of the latest one.
  lemma {:induction false} StoresHoldTheLatestUpdates(cfg: Config, run: seq<Tick>, symbol: string, name: Name)
    ensures var s, events := After(cfg, run), EventsOf(run);
            && (HasBook(s, symbol, name) <==> Mentions(events, symbol, name))
            && (HasFunding(s, symbol, name) <==> Mentions(events, symbol, name))
            && forall i: nat :: LatestOf(events, symbol, name, i) ==>
                 && s.books[symbol][name] == events[i].update
                 && s.funding[symbol][name] ==
                    SyntheticSnapshot(events[i].update, WithDefaults(cfg.funding), events[i].wall)
  {
    forall i: nat | LatestOf(EventsOf(run), symbol, name, i)
      ensures Mentions(EventsOf(run), symbol, name)
    {
      LatestIsMentioned(EventsOf(run), symbol, name, i);
    }
    hide SyntheticSnapshot, RefreshAll, Admit, Applied, LatestOf, Mentions, Concerns;
    if run == [] {
      NothingMentioned(symbol, name);
    } else {
      var front, e := run[..|run| - 1], run[|run| - 1].event;
      StoresHoldTheLatestUpdates(cfg, front, symbol, name);
      StoredByStep(cfg, After(cfg, front), e, symbol, name);
      assert EventsOf(run) == EventsOf(front) + [e];
      OneMoreEvent(EventsOf(front), e, symbol, name);
      forall i: nat | LatestOf(EventsOf(front), symbol, name, i)
        ensures Mentions(EventsOf(front), symbol, name) && i < |front|
      {
        LatestIsMentioned(EventsOf(front), symbol, name, i);
      }
    }
  }

  // The books a run's last step sees are those stored for its symbol.
  lemma BoardIsStored(cfg: Config, run: seq<Tick>)
    requires run != []
    ensures var e := run[|run| - 1].event;
            var b, s := StepBoard(cfg, After(cfg, run[..|run| - 1]), e), After(cfg, run);
            && e.update.symbol in s.books && b.books == s.books[e.update.symbol]
            && b.symbol == e.update.symbol && b.now == e.update.updatedAt
  {
    hide RefreshAll, Admit, SyntheticSnapshot;
  }

  /* ---------- The carry of a route ---------- */

  // Which routes carry, and how much: a position earns where it is short and pays where it is long.
  lemma RouteRatesInNumbers(cfg: Config)
    ensures var d := WithDefaults(cfg.funding).defaultRatePct;
            && RouteRate(cfg, "okx", "bybit") == 1.8 * d && RouteRate(cfg, "bybit", "okx") == -1.8 * d
            && RouteRate(cfg, "kucoin", "bybit") == 1.6 * d && RouteRate(cfg, "bybit", "kucoin") == -1.6 * d
            && RouteRate(cfg, "okx", "htx") == 1.4 * d && RouteRate(cfg, "htx", "okx") == -1.4 * d
            && RouteRate(cfg, "kucoin", "htx") == 1.2 * d && RouteRate(cfg, "htx", "kucoin") == -1.2 * d
            && RouteRate(cfg, "htx", "bybit") == 0.4 * d && RouteRate(cfg, "bybit", "htx") == -0.4 * d
            && RouteRate(cfg, "okx", "kucoin") == 0.2 * d && RouteRate(cfg, "kucoin", "okx") == -0.2 * d
  {
    assert "bybit"[0] == 'b' && "okx"[0] == 'o' && "htx"[0] == 'h' && "kucoin"[0] == 'k';
  }

  /* ---------- Opening ---------- */

  // A new position of this step, on these two books.
  ghost predicate NewPosition(e: Event, longBook: OrderBook, shortBook: OrderBook, p: Position) {
    && p.symbol == e.update.symbol && longBook.symbol == p.symbol && shortBook.symbol == p.symbol
    && p.longLeg == Leg(longBook.exchange, p.longLeg.entryPrice, 0.0, 0.0)
    && p.shortLeg == Leg(shortBook.exchange, p.shortLeg.entryPrice, 0.0, 0.0)
    && longBook.exchange != shortBook.exchange
    && p.id == NewOpportunityID(p.symbol, longBook.exchange, shortBook.exchange, e.update.updatedAt)
    && p.status == Open && p.openedAt == e.startedAt && p.lastUpdatedAt == e.finishedAt
    && p.closedAt == 0 && p.closeReason == ""
    && p.accruedFundingUSD == 0.0 && p.realizedPnLUSD == 0.0 && p.unrealizedPnLUSD == 0.0
  }

  // Both books are as recent as the configuration asks; the greatest age asks nothing.
  ghost predicate Recent(cfg: Config, e: Event, book: OrderBook) {
    cfg.maxOrderBookAge < MAX_DURATION ==> e.update.updatedAt - book.updatedAt <= cfg.maxOrderBookAge
  }

  // Aimed at the first funding time after the older of the two books.
  ghost predicate AimedAtTheNext(cfg: Config, longBook: OrderBook, shortBook: OrderBook, target: Time) {
    var stamp := if longBook.updatedAt < shortBook.updatedAt then longBook.updatedAt else shortBook.updatedAt;
    && IsMultiple(target, Interval(cfg)) && stamp < target
    && forall m :: IsMultiple(m, Interval(cfg)) && stamp < m ==> target <= m
  }

  function MidOrAsk(book: OrderBook): real
    requires book.asks != []
  {
    if book.bids != [] then (book.bids[0].price + book.asks[0].price) / 2.0 else book.asks[0].price
  }

  function FeePct(cfg: Config, name: Name): real { if name in cfg.fees then cfg.fees[name] else 0.10 }

  // Amounts in hundredths: rates, fees and thresholds are percentages.
  ghost predicate Worthwhile(cfg: Config, longBook: OrderBook, p: Position)
    requires longBook.asks != []
  {
    var q, long, short := p.quantity, p.longLeg.entryPrice, p.shortLeg.entryPrice;
    var rate := RouteRate(cfg, p.longLeg.exchange, p.shortLeg.exchange);
    var carry := q * MidOrAsk(longBook) * rate;
    var costs := q * long * FeePct(cfg, p.longLeg.exchange) + q * short * FeePct(cfg, p.shortLeg.exchange);
    var notional := q * Max(long, short);
    var profit := carry - 2.0 * costs - notional * cfg.basisRiskPct;
    && q > 0.0 && long > 0.0 && short > 0.0 && rate > 0.0
    && 100.0 * p.expectedCarryUSD == carry
    && carry >= 100.0 * cfg.minExpectedCarryUSD
    && profit > 0.0 && profit >= 100.0 * cfg.minProfitUSD
    && profit >= cfg.minExpectedCarryPct * notional && profit >= cfg.minProfitPct * notional
    && (cfg.maxTradeUSD > 0.0 ==> q * long <= cfg.maxTradeUSD)
  }

  // All of it.
  ghost predicate OpenedOnBooks(cfg: Config, e: Event, longBook: OrderBook, shortBook: OrderBook, p: Position) {
    && !e.canceled && longBook.asks != [] && shortBook.bids != []
    && NewPosition(e, longBook, shortBook, p)
    && Recent(cfg, e, longBook) && Recent(cfg, e, shortBook)
    && AimedAtTheNext(cfg, longBook, shortBook, p.targetFundingTime)
    && (cfg.minTimeToFunding > 0 ==> p.targetFundingTime - e.checkedAt >= cfg.minTimeToFunding)
    && Worthwhile(cfg, longBook, p)
    && Vwap(longBook.asks, p.quantity, DepthLimit(cfg.maxDepthLevels)) == Some(p.longLeg.entryPrice)
    && Vwap(shortBook.bids, p.quantity, DepthLimit(cfg.maxDepthLevels)) == Some(p.shortLeg.entryPrice)
  }

  lemma NextOfTheOlder(cfg: Config, longBook: OrderBook, shortBook: OrderBook, target: Time)
    requires !IsZero(longBook.updatedAt) && !IsZero(shortBook.updatedAt)
    requires var long := NextFundingWindow(longBook.updatedAt, Interval(cfg), longBook.updatedAt);
             var short := NextFundingWindow(shortBook.updatedAt, Interval(cfg), shortBook.updatedAt);
             target == if long < short then long else short
    ensures AimedAtTheNext(cfg, longBook, shortBook, target)
  {
    NextWindowIsLeastMultipleAfter(longBook.updatedAt, Interval(cfg), longBook.updatedAt);
    NextWindowIsLeastMultipleAfter(shortBook.updatedAt, Interval(cfg), shortBook.updatedAt);
    hide IsMultiple, NextFundingWindow;
  }

  lemma FundingOnBoard(cfg: Config, b: Board, name: Name)
    requires GoodBoard(cfg, b) && name in b.books
    ensures !IsZero(b.books[name].updatedAt)
    ensures b.funding[name].nextFundingTime ==
            NextFundingWindow(b.books[name].updatedAt, Interval(cfg), b.books[name].updatedAt)
  {
    hide NextFundingWindow;
  }

  lemma MarkInPrices(book: OrderBook)
    requires FeedBook(book) && book.asks != []
    ensures MarkPrice(book) == MidOrAsk(book)
  {
  }

  lemma FeeInNumbers(cfg: Config, name: Name)
    ensures TakerFeePct(cfg, name) == FeePct(cfg, name)
  {
  }

  // What an offer is worth, in the books' prices.
  lemma OfferInWords(cfg: Config, b: Board, long: Name, short: Name)
    requires GoodBoard(cfg, b) && Offer(cfg, b, long, short).Some?
    ensures long in b.books && short in b.books && b.books[long].asks != [] && b.books[short].bids != []
    ensures var o := Offer(cfg, b, long, short).value;
            var q, depth := o.quantity, DepthLimit(cfg.maxDepthLevels);
            var carry := q * MidOrAsk(b.books[long]) * RouteRate(cfg, long, short);
            var costs := q * o.longEntryPrice * FeePct(cfg, long) + q * o.shortEntryPrice * FeePct(cfg, short);
            && q > 0.0 && o.longEntryPrice > 0.0 && o.shortEntryPrice > 0.0
            && 100.0 * o.expectedCarryUSD == carry
            && o.expectedCarryUSD >= cfg.minExpectedCarryUSD
            && 100.0 * o.expectedNetProfitUSD ==
               carry - 2.0 * costs - q * Max(o.longEntryPrice, o.shortEntryPrice) * cfg.basisRiskPct
            && o.expectedNetProfitUSD > 0.0 && o.expectedNetProfitPct >= cfg.minExpectedCarryPct
            && Vwap(b.books[long].asks, q, depth) == Some(o.longEntryPrice)
            && Vwap(b.books[short].bids, q, depth) == Some(o.shortEntryPrice)
  {
    hide GoodBoard, EstimateOf, TargetQuantity, Vwap, RouteRate, FeedBook, Max, MarkPrice;
    hide MidOrAsk, FeePct, TakerFeePct;
    OfferFacts(cfg, b, long, short);
    OfferInput(cfg, b, long, short);
    var input := InputFor(cfg, b, long, short);
    AcceptedIsPriced(input, b.wall);
    EstimateAccounts(input, b.wall);
    hide Offer, Priced;
    MarkInPrices(b.books[long]);
    FeeInNumbers(cfg, long);
    FeeInNumbers(cfg, short);
  }

  lemma OfferTimesInWords(cfg: Config, b: Board, long: Name, short: Name)
    requires GoodBoard(cfg, b) && Offer(cfg, b, long, short).Some?
    ensures long in b.books && short in b.books
    ensures AimedAtTheNext(cfg, b.books[long], b.books[short], Offer(cfg, b, long, short).value.targetFundingTime)
    ensures cfg.maxOrderBookAge < MAX_DURATION ==>
              && b.now - b.books[long].updatedAt <= cfg.maxOrderBookAge
              && b.now - b.books[short].updatedAt <= cfg.maxOrderBookAge
  {
    hide GoodBoard, EstimateOf, Vwap, AimedAtTheNext, IsFresh, TargetQuantity;
    OfferInput(cfg, b, long, short);
    EstimateAccounts(InputFor(cfg, b, long, short), b.wall);
    FundingOnBoard(cfg, b, long);
    FundingOnBoard(cfg, b, short);
    FreshIff(b.books[long], cfg.maxOrderBookAge, b.now);
    FreshIff(b.books[short], cfg.maxOrderBookAge, b.now);
    NextOfTheOlder(cfg, b.books[long], b.books[short], Offer(cfg, b, long, short).value.targetFundingTime);
  }

  lemma OfferPctReaches(cfg: Config, b: Board, long: Name, short: Name, t: real)
    requires GoodBoard(cfg, b) && Offer(cfg, b, long, short).Some?
    ensures var o := Offer(cfg, b, long, short).value;
            o.expectedNetProfitPct >= t <==>
            100.0 * o.expectedNetProfitUSD >= t * (o.quantity * Max(o.longEntryPrice, o.shortEntryPrice))
  {
    hide GoodBoard, EstimateOf, Max;
    OfferInput(cfg, b, long, short);
    ProfitPctReaches(InputFor(cfg, b, long, short), b.wall, t);
  }

  // An admitted offer, as the position it becomes.
  lemma AdmittedInWords(cfg: Config, b: Board, e: Event, long: Name, short: Name)
    requires GoodBoard(cfg, b) && Offer(cfg, b, long, short).Some?
    requires Approves(RiskOf(cfg), e.canceled, Offer(cfg, b, long, short).value, e.checkedAt)
    requires b.symbol == e.update.symbol && b.now == e.update.updatedAt
    ensures long in b.books && short in b.books
    ensures OpenedOnBooks(cfg, e, b.books[long], b.books[short],
                          PositionFrom(Offer(cfg, b, long, short).value, e.startedAt, e.finishedAt))
  {
    hide GoodBoard, Offer, Vwap, AimedAtTheNext, RouteRate, Max, MidOrAsk, FeePct, Raised, Approves, NewOpportunityID;
    var o := Offer(cfg, b, long, short).value;
    OfferFacts(cfg, b, long, short);
    OfferInWords(cfg, b, long, short);
    OfferTimesInWords(cfg, b, long, short);
    OfferPctReaches(cfg, b, long, short, cfg.minProfitPct);
    OfferPctReaches(cfg, b, long, short, cfg.minExpectedCarryPct);
    ApprovesIff(RiskOf(cfg), e.canceled, o, e.checkedAt);
    NamesOnBoard(cfg, b);
  }

  lemma OpenedInWords(cfg: Config, run: seq<Tick>)
    requires run != [] && IsRun(cfg, run) && GoodFeed(EventsOf(run)) && Opens(cfg, run)
    ensures var e, p, stored := run[|run| - 1].event, Opened(run), After(cfg, run).books;
            && e.update.symbol in stored
            && var books := stored[e.update.symbol];
            && p.longLeg.exchange in books && p.shortLeg.exchange in books
            && OpenedOnBooks(cfg, e, books[p.longLeg.exchange], books[p.shortLeg.exchange], p)
  {
    hide GoodBoard, GoodLedger, GoodFeed, IsRun, Offer, Step, Approves, After, StepBoard, Raised, OpenedOnBooks;
    BoardIsStored(cfg, run);
    var long, short := OpeningOffer(cfg, run);
    var b := StepBoard(cfg, After(cfg, run[..|run| - 1]), run[|run| - 1].event);
    AdmittedInWords(cfg, b, run[|run| - 1].event, long, short);
    assert OpenedOnBooks(cfg, run[|run| - 1].event, b.books[long], b.books[short], Opened(run));
  }

  // A step adds at most one position, and it is opened on the books stored for the two exchanges, at the carry
  // their prices give.
  lemma OpeningInWords(cfg: Config, run: seq<Tick>)
    requires run != [] && IsRun(cfg, run) && GoodFeed(EventsOf(run))
    ensures var e, before, after := run[|run| - 1].event, After(cfg, run[..|run| - 1]).ledger, After(cfg, run);
            && e.update.symbol in after.books
            && var books := after.books[e.update.symbol];
               || after.ledger.added == before.added
               || exists p :: && after.ledger.added == before.added + [p]
                              && p.longLeg.exchange in books && p.shortLeg.exchange in books
                              && OpenedOnBooks(cfg, e, books[p.longLeg.exchange], books[p.shortLeg.exchange], p)
  {
    hide GoodBoard, GoodLedger, GoodFeed, IsRun, Step, Approves, After, StepBoard, OpenedOnBooks;
    AddedInStep(cfg, run);
    BoardIsStored(cfg, run);
    if Opens(cfg, run) {
      OpenedInWords(cfg, run);
    }
  }

  /* ---------- Keeping and closing ---------- */

  // The position can be left at these books' best bid and ask.
  ghost predicate Leavable(books: map<Name, OrderBook>, p: Position) {
    && p.longLeg.exchange in books && p.shortLeg.exchange in books
    && books[p.longLeg.exchange].bids != [] && books[p.shortLeg.exchange].asks != []
  }

  // What the price moves have made of it.
  function GainAt(p: Position, bid: real, ask: real): real {
    p.quantity * ((p.shortLeg.entryPrice - p.longLeg.entryPrice) - (ask - bid))
  }

  ghost predicate HeldTooLong(cfg: Config, now: Time, p: Position) {
    cfg.maxHoldTime == MIN_DURATION || now - p.openedAt >= cfg.maxHoldTime
  }

  // q as it is kept at time now.
  function KeptAt(q: Position, bid: real, ask: real, now: Time): Position {
    q.(unrealizedPnLUSD := GainAt(q, bid, ask), lastUpdatedAt := now)
  }

  // q as it is closed: at the long exchange's bid and the short one's ask, with its carry credited.
  ghost function ClosedAt(cfg: Config, q: Position, bid: real, ask: real, now: Time): Position {
    q.(status := Closed, closedAt := now, lastUpdatedAt := now,
       longLeg := q.longLeg.(exitPrice := bid), shortLeg := q.shortLeg.(exitPrice := ask),
       unrealizedPnLUSD := GainAt(q, bid, ask), accruedFundingUSD := q.expectedCarryUSD,
       realizedPnLUSD := GainAt(q, bid, ask) + q.expectedCarryUSD,
       closeReason := if HeldTooLong(cfg, now, q) then "max_hold_time" else "funding_captured")
  }

  lemma GainIs(p: Position, bid: real, ask: real)
    ensures PriceGain(p, bid, ask) == GainAt(p, bid, ask)
  {
  }

  lemma HeldTooLongIs(cfg: Config, now: Time, p: Position)
    ensures HeldTooLong(cfg, now, p) <==> Sub(now, p.openedAt) >= cfg.maxHoldTime
  {
    if cfg.maxHoldTime > MIN_DURATION {
      SubCompares(now, p.openedAt, cfg.maxHoldTime);
    }
  }

  lemma LeavableHasExit(cfg: Config, b: Board, p: Position)
    requires GoodBoard(cfg, b)
    ensures Leavable(b.books, p) <==> HasExit(b, p)
  {
  }

  lemma CarryStands(cfg: Config, b: Board, q: Position)
    requires GoodBoard(cfg, b) && GoodOpen(cfg, q) && HasExit(b, q)
    ensures NetRate(b, q) > 0.0
  {
    hide GoodBoard, RouteRate, NewOpportunityID;
    RouteRateOnBoard(cfg, b, q.longLeg.exchange, q.shortLeg.exchange);
  }

  // Refreshing an open position, in the books' quotes.
  lemma RefreshedInWords(cfg: Config, b: Board, q: Position)
    requires GoodBoard(cfg, b) && GoodOpen(cfg, q)
    ensures var r := Refreshed(b, q, cfg.maxHoldTime);
            if !Leavable(b.books, q) then r == Skipped
            else
              var bid, ask := b.books[q.longLeg.exchange].bids[0].price, b.books[q.shortLeg.exchange].asks[0].price;
              if b.now < q.targetFundingTime && !HeldTooLong(cfg, b.now, q)
              then r == Held(KeptAt(q, bid, ask, b.now)) else r == Settled(ClosedAt(cfg, q, bid, ask, b.now))
  {
    hide GoodBoard, GoodOpen, PriceGain, GainAt, Sub, HeldTooLong, WellOpened, NetRate;
    LeavableHasExit(cfg, b, q);
    HeldTooLongIs(cfg, b.now, q);
    if Leavable(b.books, q) {
      CarryStands(cfg, b, q);
      GainIs(q, b.books[q.longLeg.exchange].bids[0].price, b.books[q.shortLeg.exchange].asks[0].price);
    }
  }

  // The position is of the step's symbol, can be left, and is due or held too long.
  ghost predicate Leaves(cfg: Config, e: Event, books: map<Name, OrderBook>, q: Position) {
    && q.symbol == e.update.symbol && Leavable(books, q)
    && (e.update.updatedAt >= q.targetFundingTime || HeldTooLong(cfg, e.update.updatedAt, q))
  }

  // What becomes of an open position that does not leave.
  function Kept(e: Event, books: map<Name, OrderBook>, q: Position): Position {
    if q.symbol != e.update.symbol || q.longLeg.exchange !in books || q.shortLeg.exchange !in books then q
    else
      var bids, asks := books[q.longLeg.exchange].bids, books[q.shortLeg.exchange].asks;
      if bids == [] || asks == [] then q else KeptAt(q, bids[0].price, asks[0].price, e.update.updatedAt)
  }

  // What becomes of one that does.
  ghost function Left(cfg: Config, e: Event, books: map<Name, OrderBook>, q: Position): Position {
    if !Leavable(books, q) then q
    else
      var bid, ask := books[q.longLeg.exchange].bids[0].price, books[q.shortLeg.exchange].asks[0].price;
      ClosedAt(cfg, q, bid, ask, e.update.updatedAt)
  }

  // settled are exactly the positions that leave, as they are closed.
  ghost predicate AllThatLeave(
      cfg: Config, e: Event, books: map<Name, OrderBook>, open: map<string, Position>, settled: seq<Position>)
  {
    forall p :: p in settled <==>
                  exists id :: id in open && Leaves(cfg, e, books, open[id]) && p == Left(cfg, e, books, open[id])
  }

  lemma RefreshedOnBoard(cfg: Config, b: Board, e: Event, q: Position)
    requires GoodBoard(cfg, b) && GoodOpen(cfg, q) && b.symbol == e.update.symbol && b.now == e.update.updatedAt
    requires q.symbol == b.symbol
    ensures var r := Refreshed(b, q, cfg.maxHoldTime);
            if Leaves(cfg, e, b.books, q) then r == Settled(Left(cfg, e, b.books, q))
            else (r == Skipped && Kept(e, b.books, q) == q) || r == Held(Kept(e, b.books, q))
  {
    hide GoodBoard, GoodOpen, Refreshed, KeptAt, ClosedAt, HeldTooLong;
    RefreshedInWords(cfg, b, q);
  }

  lemma OthersStay(cfg: Config, e: Event, books: map<Name, OrderBook>, q: Position)
    requires q.symbol != e.update.symbol
    ensures !Leaves(cfg, e, books, q) && Kept(e, books, q) == q
  {
  }

  // One open position before and after its symbol's are refreshed.
  lemma FateInWords(cfg: Config, b: Board, e: Event, l: Ledger, todo: seq<Position>, id: string)
    requires GoodBoard(cfg, b) && GoodLedger(cfg, l) && Lists(l.open, b.symbol, todo) && id in l.open
    requires b.symbol == e.update.symbol && b.now == e.update.updatedAt
    ensures var q, after := l.open[id], RefreshAll(b, l, todo, cfg.maxHoldTime);
            && (id in after.open <==> !Leaves(cfg, e, b.books, q))
            && (id in after.open ==> after.open[id] == Kept(e, b.books, q))
            && (Leaves(cfg, e, b.books, q) ==>
                  q in todo && Refreshed(b, q, cfg.maxHoldTime) == Settled(Left(cfg, e, b.books, q)))
  {
    hide GoodBoard, GoodOpen, GoodClosed, Refreshed, Leaves, Left, Kept, Conserved, IdsOf, RefreshAll, SettledLog;
    ListsAll(l.open, b.symbol, todo);
    RefreshAllIs(b, l, todo, cfg.maxHoldTime);
    var q := l.open[id];
    if q.symbol == b.symbol {
      RefreshedOnBoard(cfg, b, e, q);
      assert q in todo;
    } else {
      OthersStay(cfg, e, b.books, q);
    }
  }

  // All that are closed are open positions that leave.
  lemma SettledInWords(cfg: Config, b: Board, e: Event, l: Ledger, todo: seq<Position>)
    requires GoodBoard(cfg, b) && GoodLedger(cfg, l) && Lists(l.open, b.symbol, todo)
    requires b.symbol == e.update.symbol && b.now == e.update.updatedAt
    ensures AllThatLeave(cfg, e, b.books, l.open, SettledLog(b, todo, cfg.maxHoldTime))
  {
    hide GoodBoard, GoodOpen, GoodClosed, Refreshed, Leaves, Left, Conserved, IdsOf, RefreshAll;
    SettledLogHolds(b, todo, cfg.maxHoldTime);
    var log := SettledLog(b, todo, cfg.maxHoldTime);
    hide SettledLog;
    forall p | p in log
      ensures exists id :: id in l.open && Leaves(cfg, e, b.books, l.open[id]) && p == Left(cfg, e, b.books, l.open[id])
    {
      var q :| q in todo && Refreshed(b, q, cfg.maxHoldTime) == Settled(p);
      RefreshedOnBoard(cfg, b, e, q);
      assert l.open[q.id] == q;
    }
    forall id | id in l.open && Leaves(cfg, e, b.books, l.open[id])
      ensures Left(cfg, e, b.books, l.open[id]) in log
    {
      FateInWords(cfg, b, e, l, todo, id);
    }
  }

  // The whole effect of a step on the position book: what it adds, as above; of the positions then open, those
  // that leave are closed and put in front of the closed ones, and all others are kept.
  lemma StepInWords(cfg: Config, run: seq<Tick>) returns (settled: seq<Position>)
    requires run != [] && IsRun(cfg, run) && GoodFeed(EventsOf(run))
    ensures var front, tick := run[..|run| - 1], run[|run| - 1];
            var e, s, t := tick.event, After(cfg, front), After(cfg, run);
            var open := Admit(cfg, s.ledger, tick.choice.best, e).open;
            && e.update.symbol in t.books
            && var books := t.books[e.update.symbol];
            && (forall id :: id in t.ledger.open <==> id in open && !Leaves(cfg, e, books, open[id]))
            && (forall id :: id in t.ledger.open ==> t.ledger.open[id] == Kept(e, books, open[id]))
            && t.ledger.closed == settled + s.ledger.closed
            && AllThatLeave(cfg, e, books, open, settled)
  {
    var front, tick := run[..|run| - 1], run[|run| - 1];
    var s, e := After(cfg, front), tick.event;
    var admitted, b := Admit(cfg, s.ledger, tick.choice.best, e), StepBoard(cfg, s, e);
    LastStep(cfg, run);
    BoardIsStored(cfg, run);
    settled := SettledLog(b, tick.choice.todo, cfg.maxHoldTime);
    hide GoodBoard, IsBest, GoodFeed, Refreshed, GoodOpen, GoodClosed, StepBoard, Conserved, Leaves, Left, Kept;
    hide AllThatLeave, IsRun, Admits;
    ListsAll(admitted.open, b.symbol, tick.choice.todo);
    RefreshAllIs(b, admitted, tick.choice.todo, cfg.maxHoldTime);
    SettledInWords(cfg, b, e, admitted, tick.choice.todo);
    forall id | id in admitted.open
      ensures id in After(cfg, run).ledger.open <==> !Leaves(cfg, e, b.books, admitted.open[id])
      ensures id in After(cfg, run).ledger.open ==>
                After(cfg, run).ledger.open[id] == Kept(e, b.books, admitted.open[id])
    {
      FateInWords(cfg, b, e, admitted, tick.choice.todo, id);
    }
  }

  // Closed at the best bid of the long exchange's book and the best ask of the short one's, which decide the
  // realized profit.
  ghost predicate ClosedAtTheQuotes(e: Event, books: map<Name, OrderBook>, p: Position) {
    && p.symbol == e.update.symbol && p.status == Closed && p.closedAt == e.update.updatedAt
    && Leavable(books, p)
    && var bid, ask := books[p.longLeg.exchange].bids[0].price, books[p.shortLeg.exchange].asks[0].price;
    && p.longLeg.exitPrice == bid && p.shortLeg.exitPrice == ask
    && p.accruedFundingUSD == p.expectedCarryUSD
    && p.realizedPnLUSD ==
       p.quantity * ((p.shortLeg.entryPrice - p.longLeg.entryPrice) - (ask - bid)) + p.expectedCarryUSD
  }

  lemma LeftIsAtTheQuotes(cfg: Config, e: Event, books: map<Name, OrderBook>, q: Position)
    requires Leaves(cfg, e, books, q)
    ensures Left(cfg, e, books, q).id == q.id && ClosedAtTheQuotes(e, books, Left(cfg, e, books, q))
  {
    hide HeldTooLong;
  }

  lemma AllLeaveAtTheQuotes(
      cfg: Config, e: Event, books: map<Name, OrderBook>, open: map<string, Position>, settled: seq<Position>)
    requires AllThatLeave(cfg, e, books, open, settled) && forall id :: id in open ==> open[id].id == id
    ensures forall p :: p in settled ==> ClosedAtTheQuotes(e, books, p)
    ensures forall id :: id in open && Leaves(cfg, e, books, open[id]) ==> exists p :: p in settled && p.id == id
  {
    hide Leaves, Left, ClosedAtTheQuotes;
    forall p | p in settled
      ensures ClosedAtTheQuotes(e, books, p)
    {
      var id :| id in open && Leaves(cfg, e, books, open[id]) && p == Left(cfg, e, books, open[id]);
      LeftIsAtTheQuotes(cfg, e, books, open[id]);
    }
    forall id | id in open && Leaves(cfg, e, books, open[id])
      ensures exists p :: p in settled && p.id == id
    {
      LeftIsAtTheQuotes(cfg, e, books, open[id]);
      assert Left(cfg, e, books, open[id]) in settled;
    }
  }

  // What was open is still open, under the same identifier, once the step has opened what it opens.
  lemma AdmittedIsKeyed(cfg: Config, run: seq<Tick>)
    requires run != [] && IsRun(cfg, run) && GoodFeed(EventsOf(run))
    ensures var tick, s := run[|run| - 1], After(cfg, run[..|run| - 1]);
            var open := Admit(cfg, s.ledger, tick.choice.best, tick.event).open;
            && (forall id :: id in s.ledger.open ==> id in open)
            && forall id :: id in open ==> open[id].id == id
  {
    hide IsRun, GoodFeed, After, Approves, StepBoard, IsBest, GoodBoard, Legal, Step;
    LastStep(cfg, run);
    var tick, s := run[|run| - 1], After(cfg, run[..|run| - 1]);
    LedgerIsKeyed(cfg, Admit(cfg, s.ledger, tick.choice.best, tick.event));
    hide GoodLedger;
  }

  // What a step closes, and at which quotes of the stored books.
  lemma ClosingInWords(cfg: Config, run: seq<Tick>) returns (settled: seq<Position>)
    requires run != [] && IsRun(cfg, run) && GoodFeed(EventsOf(run))
    ensures var e, before, after := run[|run| - 1].event, After(cfg, run[..|run| - 1]).ledger, After(cfg, run);
            && after.ledger.closed == settled + before.closed
            && (forall id :: id in before.open && id !in after.ledger.open ==> exists p :: p in settled && p.id == id)
            && e.update.symbol in after.books
            && forall p :: p in settled ==> ClosedAtTheQuotes(e, after.books[e.update.symbol], p)
  {
    hide IsRun, GoodFeed, After, Leaves, Left, Kept, Approves, ClosedAtTheQuotes, AllThatLeave;
    var tick, s := run[|run| - 1], After(cfg, run[..|run| - 1]);
    settled := StepInWords(cfg, run);
    AdmittedIsKeyed(cfg, run);
    var open := Admit(cfg, s.ledger, tick.choice.best, tick.event).open;
    hide Admit;
    AllLeaveAtTheQuotes(cfg, tick.event, After(cfg, run).books[tick.event.update.symbol], open, settled);
  }

  /* ---------- From opening to closing ---------- */

  lemma ClosedWasAdded(l: Ledger, p: Position) returns (q: Position)
    requires Conserved(l) && p in l.closed
    ensures q in l.added && Entered(q) == Entered(p)
  {
    hide Entered;
    var k :| 0 <= k < |l.closed| && l.closed[k] == p;
    assert EnteredLog(l.closed)[k] == Entered(p);
    assert Entered(p) in multiset(EnteredLog(l.added));
    assert Entered(p) in EnteredLog(l.added);
    var i :| 0 <= i < |l.added| && EnteredLog(l.added)[i] == Entered(p);
    q := l.added[i];
  }

  lemma ClosedIsGood(cfg: Config, l: Ledger, p: Position)
    requires GoodLedger(cfg, l) && p in l.closed
    ensures p.accruedFundingUSD == p.expectedCarryUSD && Conserved(l)
  {
    hide Conserved, WellOpened;
    var k :| 0 <= k < |l.closed| && l.closed[k] == p;
    assert GoodClosed(cfg, l.closed[k]);
  }

  lemma EnteredFields(p: Position, q: Position)
    requires Entered(p) == Entered(q)
    ensures p.symbol == q.symbol && p.openedAt == q.openedAt && p.quantity == q.quantity
    ensures p.expectedCarryUSD == q.expectedCarryUSD
    ensures p.longLeg.exchange == q.longLeg.exchange && p.shortLeg.exchange == q.shortLeg.exchange
  {
    assert p.openedAt == Entered(p).openedAt && p.quantity == Entered(p).quantity;
    assert p.expectedCarryUSD == Entered(p).expectedCarryUSD;
    EnteredKeepsIdentity(p, q);
  }

  // Every closed position was credited what its quantity, at the mark of the long book it was opened on, earns
  // at its route's rate.
  lemma CreditedIsTheCarryAtOpening(cfg: Config, run: seq<Tick>, p: Position) returns (prefix: seq<Tick>)
    requires IsRun(cfg, run) && GoodFeed(EventsOf(run)) && p in After(cfg, run).ledger.closed
    ensures prefix != [] && prefix <= run
    ensures var e, books := prefix[|prefix| - 1].event, After(cfg, prefix).books;
            && p.symbol == e.update.symbol && p.openedAt == e.startedAt && p.symbol in books
            && p.longLeg.exchange in books[p.symbol]
            && var longBook := books[p.symbol][p.longLeg.exchange];
            && longBook.asks != []
            && 100.0 * p.accruedFundingUSD ==
               p.quantity * MidOrAsk(longBook) * RouteRate(cfg, p.longLeg.exchange, p.shortLeg.exchange)
  {
    hide IsRun, After, GoodFeed, GoodLedger, Conserved, Entered, StepBoard, Approves, RouteRate, MidOrAsk, StoresAgree;
    hide Vwap, AimedAtTheNext, Recent;
    RunIsGood(cfg, run);
    var l := After(cfg, run).ledger;
    ClosedIsGood(cfg, l, p);
    var q := ClosedWasAdded(l, p);
    prefix := OpenedBySomeStep(cfg, run, q);
    OpenedInWords(cfg, prefix);
    EnteredFields(p, q);
  }
}
