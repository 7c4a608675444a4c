/** The constructed runs: from the two books of a stage to the step that opens its pair, and on to one
    that leaves it early. */
module Openings {
  import opened Boards
  import opened Clock
  import opened Estimator
  import opened Exposure
  import opened Identifier
  import opened Lifecycle
  import opened Market
  import opened Positions
  import opened Profitability
  import opened Risk
  import opened Runs
  import opened Scan
  import opened Staging
  import opened Wrappers

  /* ---------- Where a stage can follow ---------- */

  // A run after which the stage's updates may arrive, with nothing known or open of its symbol.
  ghost predicate Ready(cfg: Config, g: Stage, since: Time, run: seq<Tick>) {
    && Fruitful(cfg, g) && since < g.start - Lead(cfg) - 1
    && IsRun(cfg, run) && StageFeed(cfg, EventsOf(run), since, g.bid <= 1.0, g.start)
    && Precedes(cfg, EventsOf(run), g)
    && Stocked(After(cfg, run), g.symbol, map[]) && NoneOpen(After(cfg, run).ledger, g.symbol)
  }

  lemma ReadyAtFirst(cfg: Config, g: Stage, since: Time)
    requires Fruitful(cfg, g) && since < g.start - Lead(cfg) - 1
    ensures Ready(cfg, g, since, [])
  {
    hide Fruitful;
  }

  lemma ReadyFeed(cfg: Config, g: Stage, since: Time, run: seq<Tick>)
    requires Ready(cfg, g, since, run)
    ensures Fruitful(cfg, g) && NoneOpen(After(cfg, run).ledger, g.symbol)
    ensures var before := EventsOf(run);
            && GoodFeed(before) && GoodFeed(before + [LongEvent(g)])
            && GoodFeed(before + [LongEvent(g)] + [ShortEvent(g)]) && GoodFeed(before + OpeningEvents(cfg, g))
  {
    hide Fruitful, Every, GoodFeed, InOrder, LongEvent, ShortEvent, SpareEvent, ExitEvent, Precedes, NoneOpen, After;
    FeedIsGood(cfg, g, EventsOf(run), since);
  }

  /* ---------- Steps that offer nothing ---------- */

  lemma OneBookOffersNothing(cfg: Config, b: Board, name: Name, book: OrderBook)
    requires b.books == map[name := book]
    ensures forall long, short :: Offer(cfg, b, long, short).None?
  {
    hide EstimateOf;
  }

  // When even a book of the step's own time is too old, books all of that time offer nothing.
  lemma StaleBooksOfferNothing(cfg: Config, b: Board)
    requires cfg.maxOrderBookAge < 0
    requires forall name :: name in b.books ==> b.books[name].updatedAt == b.now
    ensures forall long, short :: Offer(cfg, b, long, short).None?
  {
    hide EstimateOf;
  }

  lemma StageBooks(cfg: Config, g: Stage, since: Time, before: seq<Tick>)
    requires Ready(cfg, g, since, before)
    ensures LongBook(g).exchange == g.long && ShortBook(g).exchange == g.short
    ensures LongBook(g).symbol == ShortBook(g).symbol == SpareBook(cfg, g).symbol == g.symbol
    ensures LongBook(g).updatedAt == Stamp(g) && ShortBook(g).updatedAt == g.start
    ensures SpareBook(cfg, g).exchange == g.spare && SpareBook(cfg, g).bids == [] && SpareBook(cfg, g).asks == []
    ensures SpareBook(cfg, g).updatedAt == g.start - Lead(cfg)
    ensures g.long != g.short
    ensures Lead(cfg) > 0 ==> g.spare != g.long && g.spare != g.short && !g.early
  {
    hide Profitable, Files, StageFeed, Precedes, After, IsRun, Stocked, NoneOpen;
  }

  lemma OpeningOrder(cfg: Config, g: Stage, before: seq<Event>)
    ensures Lead(cfg) == 0 ==> before + [LongEvent(g)] + [ShortEvent(g)] == before + OpeningEvents(cfg, g)
    ensures Lead(cfg) > 0 ==> before + [LongEvent(g)] + [ShortEvent(g)] + [SpareEvent(cfg, g)] ==
                              before + OpeningEvents(cfg, g)
  {
    hide LongEvent, ShortEvent, SpareEvent;
  }

  // The first book alone offers nothing.
  lemma LongRun(cfg: Config, g: Stage, since: Time, before: seq<Tick>) returns (run: seq<Tick>)
    requires Ready(cfg, g, since, before)
    ensures IsRun(cfg, run) && EventsOf(run) == EventsOf(before) + [LongEvent(g)]
    ensures Stocked(After(cfg, run), g.symbol, map[g.long := LongBook(g)])
    ensures After(cfg, run).ledger == After(cfg, before).ledger
  {
    ReadyFeed(cfg, g, since, before);
    StageBooks(cfg, g, since, before);
    hide Fruitful, GoodFeed, Offer, StageFeed, Precedes, IsRun, After, Stocked, LongBook, NoneOpen;
    var e := LongEvent(g);
    NextBoard(cfg, before, map[], e);
    OneBookOffersNothing(cfg, StepBoard(cfg, After(cfg, before), e), g.long, LongBook(g));
    run := QuietStep(cfg, before, map[], e);
  }

  // When no past book is fresh, neither do both.
  lemma QuietRun(cfg: Config, g: Stage, since: Time, before: seq<Tick>) returns (run: seq<Tick>)
    requires Ready(cfg, g, since, before) && Lead(cfg) > 0
    ensures IsRun(cfg, run) && EventsOf(run) == EventsOf(before) + [LongEvent(g)] + [ShortEvent(g)]
    ensures Stocked(After(cfg, run), g.symbol, map[g.long := LongBook(g), g.short := ShortBook(g)])
    ensures After(cfg, run).ledger == After(cfg, before).ledger
  {
    hide Ready, Fruitful, GoodFeed, Offer, IsRun, After, Stocked, LongBook, ShortBook, NoneOpen;
    hide GoodBoard, Applied, EventsOf;
    hide OpeningEvents, LongEvent;
    ReadyFeed(cfg, g, since, before);
    StageBooks(cfg, g, since, before);
    var first := LongRun(cfg, g, since, before);
    var e, books := ShortEvent(g), map[g.long := LongBook(g)];
    NextBoard(cfg, first, books, e);
    StaleBooksOfferNothing(cfg, StepBoard(cfg, After(cfg, first), e));
    run := QuietStep(cfg, first, books, e);
  }

  /* ---------- The opening run of a stage ---------- */

  // What the symbol's books are once the position is open.
  ghost predicate Supplied(g: Stage, books: map<Name, OrderBook>) {
    && g.long in books && books[g.long] == LongBook(g)
    && g.short in books && books[g.short] == ShortBook(g)
    && forall name :: name in books && name != g.long && name != g.short ==>
                        books[name].bids == [] && books[name].asks == []
  }

  lemma SuppliedIsStaged(cfg: Config, g: Stage, b: Board)
    requires Supplied(g, b.books) && b.symbol == g.symbol && b.wall == g.start && b.now == g.start - Lead(cfg)
    ensures StagedBoard(cfg, g, b)
  {
    hide LongBook, ShortBook;
  }

  // The stage's position has been opened, after what came before.
  ghost predicate OpenedOn(cfg: Config, g: Stage, before: seq<Tick>, run: seq<Tick>, books: map<Name, OrderBook>) {
    && run != [] && IsRun(cfg, run) && EventsOf(run) == EventsOf(before) + OpeningEvents(cfg, g)
    && Stocked(After(cfg, run), g.symbol, books) && Supplied(g, books)
    && StagedBoard(cfg, g, LastBoard(cfg, run))
    && Opens(cfg, run) && Staged(cfg, g, Opened(run))
    && (g.exit <= 0.0 ==> After(cfg, run).ledger == After(cfg, before).ledger.Add(Opened(run)))
  }

  // Past books are fresh: the short book opens the position.
  lemma OpeningAtOnce(cfg: Config, g: Stage, since: Time, before: seq<Tick>)
      returns (run: seq<Tick>, books: map<Name, OrderBook>)
    requires Ready(cfg, g, since, before) && Lead(cfg) == 0
    ensures OpenedOn(cfg, g, before, run, books)
  {
    hide Ready, Fruitful, GoodFeed, Offer, IsRun, After, Stocked, LongBook, ShortBook, NoneOpen, GoodBoard, EventsOf;
    hide Applied, BoardOf, Staged, OpeningEvents, LongEvent, OthersEmpty, Opens, Opened;
    ReadyFeed(cfg, g, since, before);
    StageBooks(cfg, g, since, before);
    var first := LongRun(cfg, g, since, before);
    OpeningOrder(cfg, g, EventsOf(before));
    var e, books1 := ShortEvent(g), map[g.long := LongBook(g)];
    NextBoard(cfg, first, books1, e);
    books := books1[g.short := ShortBook(g)];
    SuppliedIsStaged(cfg, g, StepBoard(cfg, After(cfg, first), e));
    hide StagedBoard, Supplied, StepBoard;
    run := OpeningStep(cfg, g, first, books1, e);
  }

  // They are not: an older update of another exchange does.
  lemma OpeningByAnOlderUpdate(cfg: Config, g: Stage, since: Time, before: seq<Tick>)
      returns (run: seq<Tick>, books: map<Name, OrderBook>)
    requires Ready(cfg, g, since, before) && Lead(cfg) > 0
    ensures OpenedOn(cfg, g, before, run, books)
  {
    hide Ready, Fruitful, GoodFeed, Offer, IsRun, After, Stocked, NoneOpen, GoodBoard, EventsOf;
    hide LongBook, ShortBook, SpareBook, Applied, BoardOf, Staged, OpeningEvents, LongEvent, ShortEvent;
    hide OthersEmpty, Opens, Opened;
    ReadyFeed(cfg, g, since, before);
    StageBooks(cfg, g, since, before);
    var two := QuietRun(cfg, g, since, before);
    OpeningOrder(cfg, g, EventsOf(before));
    var e, books2 := SpareEvent(cfg, g), map[g.long := LongBook(g), g.short := ShortBook(g)];
    NextBoard(cfg, two, books2, e);
    books := books2[g.spare := SpareBook(cfg, g)];
    SuppliedIsStaged(cfg, g, StepBoard(cfg, After(cfg, two), e));
    hide StagedBoard, Supplied, StepBoard;
    run := OpeningStep(cfg, g, two, books2, e);
  }

  lemma OpeningRun(cfg: Config, g: Stage, since: Time, before: seq<Tick>)
      returns (run: seq<Tick>, books: map<Name, OrderBook>)
    requires Ready(cfg, g, since, before)
    ensures OpenedOn(cfg, g, before, run, books)
    ensures StageFeed(cfg, EventsOf(run), since, g.bid <= 1.0, g.start)
  {
    FeedIsGood(cfg, g, EventsOf(before), since);
    hide Ready, StageFeed, OpeningEvents;
    if Lead(cfg) == 0 {
      run, books := OpeningAtOnce(cfg, g, since, before);
    } else {
      run, books := OpeningByAnOlderUpdate(cfg, g, since, before);
    }
  }

  /* ---------- Leaving early ---------- */

  ghost predicate LeavingBoard(cfg: Config, g: Stage, b: Board) {
    && b.symbol == g.symbol && b.now == Later(cfg, g)
    && g.long in b.books && b.books[g.long] == LongBook(g)
    && g.short in b.books && b.books[g.short] == ExitBook(cfg, g)
    && OthersEmpty(g, b)
  }

  lemma FundingKeys(cfg: Config, b: Board)
    requires GoodBoard(cfg, b)
    ensures b.books.Keys == b.funding.Keys
  {
  }

  // The position is due only later, but has been held for the maximum.
  lemma LeftEarly(cfg: Config, g: Stage, b: Board, p: Position)
    requires GoodBoard(cfg, b) && LeavingBoard(cfg, g, b) && Staged(cfg, g, p) && Fruitful(cfg, g)
    requires cfg.maxHoldTime < Interval(cfg) && !g.early
    ensures var r := Refreshed(b, p, cfg.maxHoldTime);
            && r.Settled? && r.position.id == p.id
            && r.position.accruedFundingUSD > 0.0
            && r.position.closedAt < r.position.targetFundingTime
  {
    hide GoodBoard, PriceGain, RouteRate, OthersEmpty, StageCarry, StageProfit, StageProfitPct, Files, ReverseGain;
    RouteRateOnBoard(cfg, b, g.long, g.short);
    FundingKeys(cfg, b);
    assert b.books[g.long].bids != [] && b.books[g.short].asks != [];
    assert NetRate(b, p) == RouteRate(cfg, g.long, g.short);
    assert Sub(Later(cfg, g), g.start) >= cfg.maxHoldTime;
  }

  // With offers between two exchanges only, there are two pairs to compare.
  lemma SomeBest(cfg: Config, b: Board, x: Name, y: Name) returns (best: Option<Opportunity>)
    requires forall long, short :: Offer(cfg, b, long, short).Some? ==>
                                     (long == x && short == y) || (long == y && short == x)
    ensures IsBest(cfg, b, best)
    ensures best == Offer(cfg, b, x, y) || best == Offer(cfg, b, y, x)
  {
    hide Offer;
    var xy, yx := Offer(cfg, b, x, y), Offer(cfg, b, y, x);
    best := if xy.None? then yx
            else if yx.None? || yx.value.expectedNetProfitUSD <= xy.value.expectedNetProfitUSD then xy else yx;
  }

  // Nothing more opens: the staged route is taken, and the gate lets nothing through in the other direction.
  lemma NothingMoreOpens(cfg: Config, g: Stage, b: Board, l: Ledger, p: Position, e: Event)
      returns (best: Option<Opportunity>)
    requires GoodBoard(cfg, b) && LeavingBoard(cfg, g, b) && Staged(cfg, g, p) && Profitable(cfg, g)
    requires KnownExchange(g.long) && KnownExchange(g.short) && g.long != g.short
    requires l.open == map[p.id := p]
    ensures IsBest(cfg, b, best) && !Admits(cfg, l, best, e)
  {
    hide GoodBoard, Offer, RouteRate, StageCarry, StageProfit, StageProfitPct, NewOpportunityID, ReverseGain;
    forall long, short | Offer(cfg, b, long, short).Some?
      ensures (long == g.long && short == g.short) || (long == g.short && short == g.long)
    {
      OffersNeedLevels(cfg, b, long, short);
    }
    best := SomeBest(cfg, b, g.long, g.short);
    SomeDirectionCarries(cfg, g.long, g.short);
    if best.Some? {
      if best == Offer(cfg, b, g.long, g.short) {
        OfferFacts(cfg, b, g.long, g.short);
        assert OnRoute(l.open[p.id], g.symbol, g.long, g.short);
      } else {
        OfferFacts(cfg, b, g.short, g.long);
        assert Raised(RiskOf(cfg), best.value, e.checkedAt, NetRateNotPositive);
      }
    }
  }

  // No closed position was credited funding before its funding time.
  ghost predicate NeverEarly(l: Ledger) {
    forall p :: p in l.closed && p.accruedFundingUSD != 0.0 ==> p.closedAt >= p.targetFundingTime
  }

  lemma StageIsKnown(cfg: Config, g: Stage)
    requires Fruitful(cfg, g)
    ensures KnownExchange(g.long) && KnownExchange(g.short) && g.long != g.short
  {
    hide Profitable;
  }

  lemma SuppliedIsLeaving(cfg: Config, g: Stage, books: map<Name, OrderBook>, b: Board)
    requires Supplied(g, books) && b.symbol == g.symbol && b.now == Later(cfg, g) && g.long != g.short
    requires b.books == books[g.short := ExitBook(cfg, g)]
    ensures LeavingBoard(cfg, g, b)
  {
    hide LongBook, ShortBook, ExitBook;
  }

  lemma StageFeedIsGood(cfg: Config, events: seq<Event>, since: Time, uncrossed: bool, wall: Time)
    requires StageFeed(cfg, events, since, uncrossed, wall)
    ensures GoodFeed(events)
  {
    hide GoodFeed, InOrder, Every;
  }

  // The step that leaves a position that is alone.
  lemma LeavingStep(cfg: Config, g: Stage, b: Board, l: Ledger, p: Position, e: Event)
      returns (best: Option<Opportunity>)
    requires GoodBoard(cfg, b) && LeavingBoard(cfg, g, b) && Staged(cfg, g, p) && Fruitful(cfg, g)
    requires cfg.maxHoldTime < Interval(cfg) && !g.early && l.open == map[p.id := p]
    ensures IsBest(cfg, b, best) && Admit(cfg, l, best, e) == l
    ensures Lists(l.open, g.symbol, [p])
    ensures !NeverEarly(RefreshAll(b, l, [p], cfg.maxHoldTime))
  {
    hide GoodBoard, Offer, IsBest, Admits, Refreshed, Placed, Profitable;
    StageIsKnown(cfg, g);
    best := NothingMoreOpens(cfg, g, b, l, p, e);
    LeftEarly(cfg, g, b, p);
    RefreshedAlone(b, l, p, cfg.maxHoldTime);
    hide LeavingBoard, RefreshAll;
    var after := RefreshOne(b, l, p, cfg.maxHoldTime);
    assert Refreshed(b, p, cfg.maxHoldTime).position in after.closed;
  }

  lemma LeavingIsAStep(cfg: Config, s: State, e: Event, best: Option<Opportunity>, p: Position)
    requires IsBest(cfg, StepBoard(cfg, s, e), best) && Admit(cfg, s.ledger, best, e) == s.ledger
    requires Lists(s.ledger.open, e.update.symbol, [p])
    ensures Legal(cfg, s, e, Choice(best, [p]))
    ensures Step(cfg, s, e, Choice(best, [p])).ledger ==
            RefreshAll(StepBoard(cfg, s, e), s.ledger, [p], cfg.maxHoldTime)
  {
    hide IsBest, Admit, Lists, RefreshAll;
  }

  // The run continues with the book that lets the position be left.
  lemma EarlyRun(cfg: Config, g: Stage, since: Time) returns (run: seq<Tick>)
    requires Fruitful(cfg, g) && since < g.start - Lead(cfg) - 1
    requires cfg.maxHoldTime < Interval(cfg) && !g.early && g.exit <= 0.0
    ensures IsRun(cfg, run) && StageFeed(cfg, EventsOf(run), since, g.bid <= 1.0, Later(cfg, g))
    ensures !NeverEarly(After(cfg, run).ledger)
  {
    ReadyAtFirst(cfg, g, since);
    var before, books := OpeningRun(cfg, g, since, []);
    assert EventsOf([]) == [] && [] + OpeningEvents(cfg, g) == OpeningEvents(cfg, g);
    assert After(cfg, before).ledger == Initial().ledger.Add(Opened(before));
    FeedIsGood(cfg, g, [], since);
    StageIsKnown(cfg, g);
    hide Ready, Fruitful, GoodFeed, IsRun, After, StageFeed, OpeningEvents, Stocked, GoodBoard, Precedes, Opened;
    hide ShortBook, LongBook, Staged, Opens, StagedBoard, RefreshAll;
    var s, e, p := After(cfg, before), ExitEvent(cfg, g), Opened(before);
    StageFeedIsGood(cfg, EventsOf(before), since, g.bid <= 1.0, g.start);
    StageFeedIsGood(cfg, EventsOf(before) + [e], since, g.bid <= 1.0, Later(cfg, g));
    var b := StepBoard(cfg, s, e);
    NextBoard(cfg, before, books, e);
    SuppliedIsLeaving(cfg, g, books, b);
    hide StepBoard, LeavingBoard;
    var best := LeavingStep(cfg, g, b, s.ledger, p, e);
    var tick := Tick(e, Choice(best, [p]));
    hide IsBest, Admit, Lists, NeverEarly;
    run := before + [tick];
    LeavingIsAStep(cfg, s, e, best, p);
    RunExtends(cfg, before, tick);
  }
}
