/** What each step opens, at which size and prices, what it leaves open and what it closes. */
module Exposure {
  import opened Boards
  import opened Clock
  import opened Depth
  import opened Estimator
  import opened Funding
  import opened Lifecycle
  import opened Market
  import opened Positions
  import opened Refresh
  import opened Risk
  import opened Runs
  import opened Scan
  import opened Wrappers

  ghost predicate NonnegativeCosts(cfg: Config) {
    cfg.basisRiskPct >= 0.0 && forall name :: TakerFeePct(cfg, name) >= 0.0
  }

  /* ---------- Selection and the gate ---------- */

  // The best profit does not depend on the order of enumeration, and there is a best exactly when there is an offer.
  lemma SelectionIgnoresOrder(cfg: Config, b: Board, best1: Option<Opportunity>, best2: Option<Opportunity>)
    requires IsBest(cfg, b, best1) && IsBest(cfg, b, best2)
    ensures best1.Some? <==> best2.Some?
    ensures best1.Some? <==> exists long, short :: Offer(cfg, b, long, short).Some?
    ensures best1.Some? ==> best1.value.expectedNetProfitUSD == best2.value.expectedNetProfitUSD
  {
    hide Offer;
    if best1.Some? {
      var long, short :| Offer(cfg, b, long, short) == best1;
    }
    if best2.Some? {
      var long, short :| Offer(cfg, b, long, short) == best2;
    }
  }

  lemma NamesOnBoard(cfg: Config, b: Board)
    requires GoodBoard(cfg, b)
    ensures forall name :: name in b.books ==> b.books[name].exchange == name && b.books[name].symbol == b.symbol
  {
  }

  lemma StampsOnBoard(cfg: Config, b: Board)
    requires GoodBoard(cfg, b)
    ensures b.now <= b.wall
    ensures forall name :: name in b.books ==> b.books[name].updatedAt <= b.wall
  {
  }

  lemma MarkOnBoard(cfg: Config, b: Board, name: Name)
    requires GoodBoard(cfg, b) && name in b.books
    ensures b.funding[name].markPrice == MarkPrice(b.books[name])
  {
  }

  lemma OfferInput(cfg: Config, b: Board, long: Name, short: Name)
    requires GoodBoard(cfg, b) && Offer(cfg, b, long, short).Some?
    ensures long in b.books && short in b.books && long in b.funding && short in b.funding
    ensures var input := InputFor(cfg, b, long, short);
            && EstimateOf(input, b.wall) == Accepted(Offer(cfg, b, long, short).value)
            && FeedBook(input.longBook) && FeedBook(input.shortBook)
            && input.longBook.asks != []
            && input.longFunding.markPrice == MarkPrice(input.longBook)
            && input.longFunding.markPrice > 0.0
  {
    KnownOnBoard(cfg, b, long);
    KnownOnBoard(cfg, b, short);
    MarkOnBoard(cfg, b, long);
    hide GoodBoard, FeedBook, TargetQuantity, Vwap;
    AcceptedIsPriced(InputFor(cfg, b, long, short), b.wall);
    MarkIsBelowAsk(b.books[long]);
  }

  // Of the gate's nine conditions only four can ever fail on an offer: the rest follow from the estimate.
  lemma GateReducesToFourConditions(cfg: Config, b: Board, long: Name, short: Name, now: Time)
    requires GoodBoard(cfg, b) && NonnegativeCosts(cfg) && Offer(cfg, b, long, short).Some?
    ensures var o := Offer(cfg, b, long, short).value;
            Approves(RiskOf(cfg), false, o, now) <==>
            && (cfg.maxTradeUSD > 0.0 ==> o.quantity * o.longEntryPrice <= cfg.maxTradeUSD)
            && o.expectedNetProfitUSD >= cfg.minProfitUSD
            && o.expectedNetProfitPct >= cfg.minProfitPct
            && (cfg.minTimeToFunding > 0 ==> o.targetFundingTime - now >= cfg.minTimeToFunding)
  {
    hide GoodBoard, EstimateOf, Sub, FeedBook, MarkPrice;
    var o := Offer(cfg, b, long, short).value;
    OfferFacts(cfg, b, long, short);
    OfferInput(cfg, b, long, short);
    AcceptedCarryIsPositive(InputFor(cfg, b, long, short), b.wall);
    SubComparesPositive(o.targetFundingTime, now, cfg.minTimeToFunding);
    hide Offer, RouteRate;
    if forall c: Concern :: !Raised(RiskOf(cfg), o, now, c) {
      assert !Raised(RiskOf(cfg), o, now, NotionalAboveLimit);
      assert !Raised(RiskOf(cfg), o, now, ProfitTooSmall);
      assert !Raised(RiskOf(cfg), o, now, ProfitPctTooSmall);
      assert !Raised(RiskOf(cfg), o, now, WindowTooClose);
    }
  }

  /* ---------- Steps of a run ---------- */

  lemma EveryPrefix(prefix: seq<Tick>, run: seq<Tick>, ok: OrderBook -> bool)
    requires prefix <= run && Every(EventsOf(run), ok)
    ensures Every(EventsOf(prefix), ok)
  {
    forall i | 0 <= i < |prefix|
      ensures ok(EventsOf(prefix)[i].update)
    {
      assert EventsOf(run)[i] == EventsOf(prefix)[i];
    }
  }

  // What holds of every update holds of every stored book.
  lemma {:induction false} StoredBooksComeFromTheFeed(cfg: Config, run: seq<Tick>, ok: OrderBook -> bool)
    requires Every(EventsOf(run), ok)
    ensures AllBooks(After(cfg, run), ok)
  {
    hide RefreshAll, Admit;
    if run == [] {
    } else {
      var front, tick := run[..|run| - 1], run[|run| - 1];
      EveryPrefix(front, run, ok);
      StoredBooksComeFromTheFeed(cfg, front, ok);
      assert ok(EventsOf(run)[|run| - 1].update);
      AppliedKeepsBooks(cfg, After(cfg, front), tick.event, ok);
    }
  }

  // So it holds of every book the last step sees.
  lemma BoardFromTheFeed(cfg: Config, run: seq<Tick>, ok: OrderBook -> bool)
    requires run != [] && Every(EventsOf(run), ok)
    ensures var b := StepBoard(cfg, After(cfg, run[..|run| - 1]), run[|run| - 1].event);
            forall name :: name in b.books ==> ok(b.books[name])
  {
    hide RefreshAll, Admit, Step;
    var front, e := run[..|run| - 1], run[|run| - 1].event;
    EveryPrefix(front, run, ok);
    StoredBooksComeFromTheFeed(cfg, front, ok);
    assert ok(EventsOf(run)[|run| - 1].update);
    AppliedKeepsBooks(cfg, After(cfg, front), e, ok);
    var t, b := Applied(cfg, After(cfg, front), e), StepBoard(cfg, After(cfg, front), e);
    forall name | name in b.books
      ensures ok(b.books[name])
    {
      assert e.update.symbol in t.books && name in t.books[e.update.symbol];
    }
  }

  lemma AddedInStep(cfg: Config, run: seq<Tick>)
    requires run != [] && IsRun(cfg, run) && GoodFeed(EventsOf(run))
    ensures var front, tick := run[..|run| - 1], run[|run| - 1];
            var after, admitted := After(cfg, run).ledger,
                                   Admit(cfg, After(cfg, front).ledger, tick.choice.best, tick.event);
            after.added == admitted.added && after.lost == admitted.lost
  {
    var front, tick := run[..|run| - 1], run[|run| - 1];
    hide GoodBoard, GoodLedger, Approves, IsBest, Applied, GoodFeed, Refreshed, OpenAfter, Admits;
    LastStep(cfg, run);
    var s, c := After(cfg, front), tick.choice;
    var admitted := Admit(cfg, s.ledger, c.best, tick.event);
    LedgerIsKeyed(cfg, admitted);
    ListsAll(admitted.open, tick.event.update.symbol, c.todo);
    RefreshAllIs(StepBoard(cfg, s, tick.event), admitted, c.todo, cfg.maxHoldTime);
  }

  // The last step of a run opens a position.
  ghost predicate Opens(cfg: Config, run: seq<Tick>)
    requires run != []
  {
    var tick := run[|run| - 1];
    Admits(cfg, After(cfg, run[..|run| - 1]).ledger, tick.choice.best, tick.event)
  }

  // The position it opens.
  function Opened(run: seq<Tick>): Position
    requires run != [] && run[|run| - 1].choice.best.Some?
  {
    var tick := run[|run| - 1];
    PositionFrom(tick.choice.best.value, tick.event.startedAt, tick.event.finishedAt)
  }

  // Whatever was opened was opened by some step.
  lemma {:induction false} OpenedBySomeStep(cfg: Config, run: seq<Tick>, p: Position) returns (prefix: seq<Tick>)
    requires IsRun(cfg, run) && GoodFeed(EventsOf(run)) && p in After(cfg, run).ledger.added
    ensures prefix != [] && prefix <= run && Opens(cfg, prefix) && Opened(prefix) == p
    ensures IsRun(cfg, prefix) && GoodFeed(EventsOf(prefix))
  {
    hide GoodFeed, Approves, Step, Legal;
    if run == [] {
      assert false;
    } else {
      hide GoodBoard, GoodLedger;
      LastStep(cfg, run);
      AddedInStep(cfg, run);
      if Opens(cfg, run) && p == Opened(run) {
        prefix := run;
      } else {
        prefix := OpenedBySomeStep(cfg, run[..|run| - 1], p);
      }
    }
  }

  // Whatever was lost was overwritten by some step.
  lemma {:induction false} LostBySomeStep(cfg: Config, run: seq<Tick>) returns (prefix: seq<Tick>)
    requires IsRun(cfg, run) && GoodFeed(EventsOf(run)) && After(cfg, run).ledger.lost != []
    ensures prefix != [] && prefix <= run
    ensures IsRun(cfg, prefix) && GoodFeed(EventsOf(prefix))
    ensures var front, tick := prefix[..|prefix| - 1], prefix[|prefix| - 1];
            Replaces(cfg, After(cfg, front), tick.event, tick.choice)
  {
    hide GoodFeed, Admits, Step, Legal;
    if run == [] {
      assert false;
    } else {
      hide GoodBoard, GoodLedger;
      LastStep(cfg, run);
      AddedInStep(cfg, run);
      var front, tick := run[..|run| - 1], run[|run| - 1];
      if Replaces(cfg, After(cfg, front), tick.event, tick.choice) {
        prefix := run;
      } else {
        prefix := LostBySomeStep(cfg, front);
      }
    }
  }

  /* ---------- Both legs within the trade cap ---------- */

  ghost predicate WithinCap(cfg: Config, p: Position) {
    && 0.0 < Pay(p.quantity, p.longLeg.entryPrice) <= cfg.maxTradeUSD
    && 0.0 < Pay(p.quantity, p.shortLeg.entryPrice) <= cfg.maxTradeUSD
  }

  // The long leg is capped by the gate, since slippage can exceed the estimator's own cap; the short
  // leg by sizing, since sorted bids only slip downwards.
  lemma AdmittedWithinCap(cfg: Config, b: Board, l: Ledger, best: Option<Opportunity>, e: Event)
    requires GoodBoard(cfg, b) && IsBest(cfg, b, best) && Admits(cfg, l, best, e)
    requires cfg.maxTradeUSD > 0.0
    requires forall name :: name in b.books ==> BidsOrdered(b.books[name])
    ensures WithinCap(cfg, PositionFrom(best.value, e.startedAt, e.finishedAt))
  {
    hide GoodBoard, EstimateOf, FeedBook, MarkPrice, Offer;
    var o := best.value;
    var long, short :| Offer(cfg, b, long, short) == best;
    OfferInput(cfg, b, long, short);
    ShortLegWithinCap(InputFor(cfg, b, long, short), b.wall);
    assert !Raised(RiskOf(cfg), o, e.checkedAt, NotionalNotPositive);
    assert !Raised(RiskOf(cfg), o, e.checkedAt, NotionalAboveLimit);
  }

  // Every position ever opened keeps both legs within the trade cap.
  lemma LegsWithinCap(cfg: Config, run: seq<Tick>)
    requires IsRun(cfg, run) && GoodFeed(EventsOf(run)) && Every(EventsOf(run), BidsOrdered)
    requires cfg.maxTradeUSD > 0.0
    ensures forall p :: p in After(cfg, run).ledger.added ==> WithinCap(cfg, p)
  {
    hide GoodBoard, GoodLedger, GoodFeed, WithinCap, BidsOrdered, IsRun, After;
    hide Applied, RefreshAll, Approves, IsBest, Every, StepBoard;
    forall p | p in After(cfg, run).ledger.added
      ensures WithinCap(cfg, p)
    {
      var prefix := OpenedBySomeStep(cfg, run, p);
      var s, tick := After(cfg, prefix[..|prefix| - 1]), prefix[|prefix| - 1];
      LastStep(cfg, prefix);
      EveryPrefix(prefix, run, BidsOrdered);
      BoardFromTheFeed(cfg, prefix, BidsOrdered);
      AdmittedWithinCap(cfg, StepBoard(cfg, s, tick.event), s.ledger, tick.choice.best, tick.event);
    }
  }

  /* ---------- Whatever the orders do ---------- */

  // What the gate lets through on a route that is not open.
  ghost predicate Wanted(cfg: Config, l: Ledger, best: Option<Opportunity>, e: Event) {
    && best.Some?
    && !l.HasRoute(best.value.symbol, best.value.longExchange, best.value.shortExchange)
    && Approves(RiskOf(cfg), e.canceled, best.value, e.checkedAt)
  }

  // Every stored book came from a connector, so execution never fails for want of one: on paper or live,
  // and whichever orders are placed, exactly the approved offers on free routes are opened.
  lemma ApprovedOffersOpen(cfg: Config, run: seq<Tick>)
    requires run != [] && IsRun(cfg, run) && GoodFeed(EventsOf(run)) && Every(EventsOf(run), FromConnectors(cfg))
    ensures var front, tick := run[..|run| - 1], run[|run| - 1];
            var before, after := After(cfg, front).ledger, After(cfg, run).ledger;
            && after.added == before.added + (if Wanted(cfg, before, tick.choice.best, tick.event)
                                              then [Opened(run)] else [])
            && forall placed :: Admits(cfg, before, tick.choice.best, tick.event.(placed := placed)) <==>
                                Wanted(cfg, before, tick.choice.best, tick.event)
  {
    hide GoodBoard, GoodLedger, GoodFeed, IsRun, Approves, Offer, StepBoard, Every, Step;
    var front, tick := run[..|run| - 1], run[|run| - 1];
    var s, best := After(cfg, front), tick.choice.best;
    LastStep(cfg, run);
    AddedInStep(cfg, run);
    hide After;
    if Wanted(cfg, s.ledger, best, tick.event) {
      var b := StepBoard(cfg, s, tick.event);
      BoardFromTheFeed(cfg, run, FromConnectors(cfg));
      var long, short :| Offer(cfg, b, long, short) == best;
      OfferFacts(cfg, b, long, short);
      OfferInput(cfg, b, long, short);
      NamesOnBoard(cfg, b);
      hide IsBest;
      assert FromConnectors(cfg)(b.books[long]) && FromConnectors(cfg)(b.books[short]);
    }
  }

  /* ---------- What a step leaves open ---------- */

  // Before its funding time and held for less than the maximum.
  ghost predicate OnTime(b: Board, p: Position, maxHold: Duration) {
    b.now < p.targetFundingTime && maxHold > MIN_DURATION && b.now - p.openedAt < maxHold
  }

  lemma HeldMeansOnTime(b: Board, p: Position, maxHold: Duration)
    ensures StillHeld(b, p, maxHold) <==> OnTime(b, p, maxHold)
  {
    if maxHold > MIN_DURATION {
      SubCompares(b.now, p.openedAt, maxHold);
    }
  }

  // A position that can be priced carries the profit its exit quotes would give, as of the book time.
  ghost predicate MarkedTo(b: Board, p: Position) {
    HasExit(b, p) ==> p.unrealizedPnLUSD == ExitPnL(b, p) && p.lastUpdatedAt == b.now
  }

  lemma EnteredDecidesFate(b: Board, p: Position, q: Position, maxHold: Duration)
    requires Entered(p) == Entered(q)
    ensures HasExit(b, p) == HasExit(b, q) && OnTime(b, p, maxHold) == OnTime(b, q, maxHold) && p.symbol == q.symbol
  {
    assert p.longLeg.exchange == Entered(p).longLeg.exchange && p.shortLeg.exchange == Entered(p).shortLeg.exchange;
    assert p.targetFundingTime == Entered(p).targetFundingTime && p.openedAt == Entered(p).openedAt;
  }

  lemma FateOfOne(cfg: Config, b: Board, p: Position)
    requires GoodBoard(cfg, b) && GoodOpen(cfg, p)
    ensures match Refreshed(b, p, cfg.maxHoldTime)
            case Skipped => !HasExit(b, p) && MarkedTo(b, p)
            case Held(q) =>
              && q.symbol == p.symbol && Entered(q) == Entered(p)
              && OnTime(b, q, cfg.maxHoldTime) && MarkedTo(b, q)
            case Settled(q) => HasExit(b, p) && !OnTime(b, p, cfg.maxHoldTime)
  {
    hide GoodBoard, GoodOpen, StillHeld, OnTime;
    RefreshedIsGood(cfg, b, p);
    HeldMeansOnTime(b, p, cfg.maxHoldTime);
    match Refreshed(b, p, cfg.maxHoldTime)
    case Held(q) =>
      HeldMeansOnTime(b, q, cfg.maxHoldTime);
      EnteredDecidesFate(b, p, q, cfg.maxHoldTime);
    case _ =>
  }

  lemma RefreshFate(cfg: Config, b: Board, l: Ledger, todo: seq<Position>)
    requires GoodBoard(cfg, b) && GoodLedger(cfg, l) && Lists(l.open, b.symbol, todo)
    ensures var after := RefreshAll(b, l, todo, cfg.maxHoldTime);
            && after.open.Keys <= l.open.Keys
            && (forall id :: id in after.open ==> Entered(after.open[id]) == Entered(l.open[id]))
            && (forall id :: id in after.open && after.open[id].symbol == b.symbol ==> MarkedTo(b, after.open[id]))
            && (forall id :: id in after.open && after.open[id].symbol == b.symbol && HasExit(b, after.open[id]) ==>
                               OnTime(b, after.open[id], cfg.maxHoldTime))
            && (forall id :: id in l.open && id !in after.open ==>
                               && l.open[id].symbol == b.symbol && HasExit(b, l.open[id])
                               && !OnTime(b, l.open[id], cfg.maxHoldTime)
                               && exists p :: p in after.closed &&
                                              Settled(p) == Refreshed(b, l.open[id], cfg.maxHoldTime))
            && (forall id :: id in l.open && l.open[id].symbol != b.symbol ==>
                               id in after.open && after.open[id] == l.open[id])
  {
    hide GoodBoard, Refreshed, GoodOpen, GoodClosed, OnTime, HasExit, Conserved, MarkedTo, Entered;
    ListsAll(l.open, b.symbol, todo);
    RefreshAllIs(b, l, todo, cfg.maxHoldTime);
    SettledLogHolds(b, todo, cfg.maxHoldTime);
    hide RefreshAll, SettledLog, IdsOf;
    var after := RefreshAll(b, l, todo, cfg.maxHoldTime);
    forall id | id in l.open
      ensures id in after.open && after.open[id].symbol == b.symbol && HasExit(b, after.open[id]) ==>
                OnTime(b, after.open[id], cfg.maxHoldTime)
      ensures id in after.open ==> Entered(after.open[id]) == Entered(l.open[id])
      ensures id in after.open && after.open[id].symbol == b.symbol ==> MarkedTo(b, after.open[id])
      ensures id !in after.open ==>
                && l.open[id].symbol == b.symbol && HasExit(b, l.open[id])
                && !OnTime(b, l.open[id], cfg.maxHoldTime)
                && exists p :: p in after.closed && Settled(p) == Refreshed(b, l.open[id], cfg.maxHoldTime)
    {
      var p := l.open[id];
      FateOfOne(cfg, b, p);
      if id !in after.open {
        assert p in todo;
        var q := Refreshed(b, p, cfg.maxHoldTime).position;
        assert q in SettledLog(b, todo, cfg.maxHoldTime);
        assert q in after.closed;
      }
    }
  }

  // After a step on a symbol at its book time: a position of that symbol that can be priced is neither
  // due nor held too long, and is marked to its exit quotes; whatever the step closed was due or held too
  // long; and nothing else is touched.
  lemma StepLeavesNothingOverdue(cfg: Config, run: seq<Tick>)
    requires run != [] && IsRun(cfg, run) && GoodFeed(EventsOf(run))
    ensures var front, tick := run[..|run| - 1], run[|run| - 1];
            var s := After(cfg, front);
            var b := StepBoard(cfg, s, tick.event);
            var admitted, after := Admit(cfg, s.ledger, tick.choice.best, tick.event), After(cfg, run).ledger;
            && after.open.Keys <= admitted.open.Keys
            && (forall id :: id in after.open ==> Entered(after.open[id]) == Entered(admitted.open[id]))
            && (forall id :: id in after.open && after.open[id].symbol == b.symbol ==> MarkedTo(b, after.open[id]))
            && (forall id :: id in after.open && after.open[id].symbol == b.symbol && HasExit(b, after.open[id]) ==>
                               OnTime(b, after.open[id], cfg.maxHoldTime))
            && (forall id :: id in admitted.open && id !in after.open ==>
                               && admitted.open[id].symbol == b.symbol && HasExit(b, admitted.open[id])
                               && !OnTime(b, admitted.open[id], cfg.maxHoldTime)
                               && exists p :: p in after.closed &&
                                              Settled(p) == Refreshed(b, admitted.open[id], cfg.maxHoldTime))
            && (forall id :: id in admitted.open && admitted.open[id].symbol != b.symbol ==>
                               id in after.open && after.open[id] == admitted.open[id])
  {
    var front, tick := run[..|run| - 1], run[|run| - 1];
    var s := After(cfg, front);
    var b, admitted := StepBoard(cfg, s, tick.event), Admit(cfg, s.ledger, tick.choice.best, tick.event);
    LastStep(cfg, run);
    hide GoodBoard, Admit, IsBest, IsRun, GoodFeed, Refreshed, GoodOpen;
    hide GoodClosed, OnTime, HasExit, StepBoard, Conserved, MarkedTo, Entered;
    ListsAll(admitted.open, tick.event.update.symbol, tick.choice.todo);
    RefreshFate(cfg, b, admitted, tick.choice.todo);
  }

  lemma AdmittedSymbol(cfg: Config, s: State, e: Event, best: Option<Opportunity>)
    requires IsBest(cfg, StepBoard(cfg, s, e), best) && best.Some? && GoodBoard(cfg, StepBoard(cfg, s, e))
    ensures PositionFrom(best.value, e.startedAt, e.finishedAt).symbol == StepBoard(cfg, s, e).symbol
  {
    hide GoodBoard, Offer;
    var b := StepBoard(cfg, s, e);
    var long, short :| Offer(cfg, b, long, short) == best;
    OfferFacts(cfg, b, long, short);
  }

  // The step that opens a position closes it again exactly when it can be priced and is already due or held too long.
  lemma FateOfTheOpenedPosition(cfg: Config, run: seq<Tick>)
    requires run != [] && IsRun(cfg, run) && GoodFeed(EventsOf(run))
    ensures var front, tick := run[..|run| - 1], run[|run| - 1];
            var s := After(cfg, front);
            var b := StepBoard(cfg, s, tick.event);
            Admits(cfg, s.ledger, tick.choice.best, tick.event) ==>
              var p := PositionFrom(tick.choice.best.value, tick.event.startedAt, tick.event.finishedAt);
              p.id in After(cfg, run).ledger.open <==> HasExit(b, p) ==> OnTime(b, p, cfg.maxHoldTime)
  {
    hide GoodBoard, GoodLedger, IsBest, Initial, Refreshed, IsRun;
    hide GoodFeed, Lists, Approves, OnTime, HasExit, Entered, MarkedTo;
    var front, tick := run[..|run| - 1], run[|run| - 1];
    var s, e, best := After(cfg, front), tick.event, tick.choice.best;
    LastStep(cfg, run);
    hide Step, Applied;
    StepLeavesNothingOverdue(cfg, run);
    if Admits(cfg, s.ledger, best, e) {
      var p := PositionFrom(best.value, e.startedAt, e.finishedAt);
      hide PositionFrom;
      assert Admit(cfg, s.ledger, best, e).open[p.id] == p;
      var b, after := StepBoard(cfg, s, e), After(cfg, run).ledger;
      hide StepBoard;
      AdmittedSymbol(cfg, s, e, best);
      if p.id in after.open {
        EnteredDecidesFate(b, p, after.open[p.id], cfg.maxHoldTime);
      }
    }
  }

  // A lead before funding is demanded, or books stamped in the past are too old to straddle a funding time.
  predicate LeadSafe(cfg: Config) { cfg.minTimeToFunding > 0 || cfg.maxOrderBookAge <= 0 }

  // Positions may be held for some time, or for longer than fresh books are ahead of the book time.
  predicate HoldSafe(cfg: Config) { cfg.maxHoldTime > 0 || cfg.maxHoldTime > cfg.maxOrderBookAge }

  lemma FreshIsWithinAge(now: Time, stamp: Time, age: Duration)
    requires Sub(now, stamp) <= age && age <= 0
    ensures now - stamp <= age
  {
  }

  // What an offer is aimed at, and how its books' times relate to the step's.
  lemma OfferTimes(cfg: Config, b: Board, long: Name, short: Name)
    requires GoodBoard(cfg, b) && Offer(cfg, b, long, short).Some?
    ensures cfg.maxOrderBookAge <= 0 ==> b.now < Offer(cfg, b, long, short).value.targetFundingTime
    ensures cfg.maxOrderBookAge <= 0 ==> b.now - b.wall <= cfg.maxOrderBookAge
  {
    hide GoodBoard, EstimateOf, Sub;
    OfferFacts(cfg, b, long, short);
    WindowOnBoard(cfg, b, long);
    WindowOnBoard(cfg, b, short);
    StampsOnBoard(cfg, b);
    if cfg.maxOrderBookAge <= 0 {
      FreshIsWithinAge(b.now, b.books[long].updatedAt, cfg.maxOrderBookAge);
      FreshIsWithinAge(b.now, b.books[short].updatedAt, cfg.maxOrderBookAge);
    }
  }

  // When lead and hold are safe, the step that opens a position never closes it again.
  lemma OpenedPositionSurvivesItsStep(cfg: Config, run: seq<Tick>)
    requires run != [] && IsRun(cfg, run) && GoodFeed(EventsOf(run))
    requires LeadSafe(cfg) && HoldSafe(cfg)
    ensures Opens(cfg, run) ==> Opened(run).id in After(cfg, run).ledger.open
  {
    hide GoodBoard, GoodLedger, IsRun, GoodFeed, Lists, Step, Refreshed, HasExit, Offer, After, Applied;
    var front, tick := run[..|run| - 1], run[|run| - 1];
    var s, e, best := After(cfg, front), tick.event, tick.choice.best;
    LastStep(cfg, run);
    FateOfTheOpenedPosition(cfg, run);
    if Opens(cfg, run) {
      var b, o := StepBoard(cfg, s, e), best.value;
      var long, short :| Offer(cfg, b, long, short) == best;
      OfferTimes(cfg, b, long, short);
      assert !Raised(RiskOf(cfg), o, e.checkedAt, WindowTooClose);
      SubComparesPositive(o.targetFundingTime, e.checkedAt, cfg.minTimeToFunding);
      StampsOnBoard(cfg, b);
      assert OnTime(b, Opened(run), cfg.maxHoldTime);
    }
  }

  /* ---------- Opening prices ---------- */

  ghost predicate BestAttainable(side: Side, u: seq<Level>, q: real, price: real)
    requires q > 0.0
  {
    && Attainable(u, q, price)
    && forall x :: IsAllocation(u, x, q) ==> NoWorse(side, price, Average(AllocationCost(u, x), q))
  }

  // p trades its quantity at the best prices the two books allow, and both books are recent.
  ghost predicate BestPriced(cfg: Config, b: Board, p: Position) {
    && p.longLeg.exchange in b.books && p.shortLeg.exchange in b.books
    && var depth := DepthLimit(cfg.maxDepthLevels);
    && var longBook, shortBook := b.books[p.longLeg.exchange], b.books[p.shortLeg.exchange];
    && p.quantity > 0.0
    && BestAttainable(Asks, UsableLevels(longBook.asks, depth), p.quantity, p.longLeg.entryPrice)
    && BestAttainable(Bids, UsableLevels(shortBook.bids, depth), p.quantity, p.shortLeg.entryPrice)
    && IsFresh(longBook, cfg.maxOrderBookAge, b.now) && IsFresh(shortBook, cfg.maxOrderBookAge, b.now)
  }

  lemma UsableIsSorted(side: Side, levels: seq<Level>, depth: int)
    requires AllUsable(levels) && Sorted(side, levels)
    ensures Sorted(side, UsableLevels(levels, depth))
  {
    UsableIsPrefix(levels, depth);
  }

  lemma VwapIsBest(side: Side, levels: seq<Level>, q: real, depth: int)
    requires AllUsable(levels) && Sorted(side, levels) && q > 0.0 && Vwap(levels, q, depth).Some?
    ensures BestAttainable(side, UsableLevels(levels, depth), q, Vwap(levels, q, depth).value)
  {
    UsableIsSorted(side, levels, depth);
    hide UsableLevels, Vwap, IsAllocation, AllocationCost, Average, Attainable;
    VwapIsBestAttainable(side, levels, q, depth);
  }

  lemma OfferIsBestPriced(cfg: Config, b: Board, long: Name, short: Name, e: Event)
    requires GoodBoard(cfg, b) && Offer(cfg, b, long, short).Some?
    requires forall name :: name in b.books ==> AsksOrdered(b.books[name]) && BidsOrdered(b.books[name])
    ensures BestPriced(cfg, b, PositionFrom(Offer(cfg, b, long, short).value, e.startedAt, e.finishedAt))
  {
    hide GoodBoard, EstimateOf, RouteRate, TargetQuantity, Vwap, UsableLevels, BestAttainable, Priced;
    OfferFacts(cfg, b, long, short);
    OfferInput(cfg, b, long, short);
    var o, input := Offer(cfg, b, long, short).value, InputFor(cfg, b, long, short);
    AcceptedIsPriced(input, b.wall);
    VwapIsBest(Asks, b.books[long].asks, o.quantity, DepthLimit(input.maxDepthLevels));
    VwapIsBest(Bids, b.books[short].bids, o.quantity, DepthLimit(input.maxDepthLevels));
  }

  // A position is opened at the best price any way of filling its quantity could get, on both exchanges.
  lemma PositionsOpenAtBestPrices(cfg: Config, run: seq<Tick>)
    requires run != [] && IsRun(cfg, run) && GoodFeed(EventsOf(run))
    requires Every(EventsOf(run), AsksOrdered) && Every(EventsOf(run), BidsOrdered)
    ensures var front, tick := run[..|run| - 1], run[|run| - 1];
            var s := After(cfg, front);
            Admits(cfg, s.ledger, tick.choice.best, tick.event) ==>
              BestPriced(cfg, StepBoard(cfg, s, tick.event),
                         PositionFrom(tick.choice.best.value, tick.event.startedAt, tick.event.finishedAt))
  {
    hide GoodBoard, GoodLedger, GoodFeed, AsksOrdered, BidsOrdered;
    hide Applied, RefreshAll, Approves, Offer, BestPriced, Step;
    hide Every, StepBoard;
    var front, tick := run[..|run| - 1], run[|run| - 1];
    LastStep(cfg, run);
    var s, best := After(cfg, front), tick.choice.best;
    if Admits(cfg, s.ledger, best, tick.event) {
      BoardFromTheFeed(cfg, run, AsksOrdered);
      BoardFromTheFeed(cfg, run, BidsOrdered);
      var b := StepBoard(cfg, s, tick.event);
      var long, short :| Offer(cfg, b, long, short) == best;
      OfferIsBestPriced(cfg, b, long, short, tick.event);
    }
  }
}
