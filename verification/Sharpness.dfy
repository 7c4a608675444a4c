/** Exactly which configurations let the engine open positions, credit funding before it is due, overwrite
    an open position or close one in the step that opened it: for each, the runs that show it, on what the
    enabled connectors can deliver after any given time. */
module Sharpness {
  import opened Boards
  import opened Clashes
  import opened Clock
  import opened Exposure
  import opened Funding
  import opened Identifier
  import opened Lifecycle
  import opened Market
  import opened Openings
  import opened Positions
  import opened Profitability
  import opened Risk
  import opened Runs
  import opened Scan
  import opened Stages
  import opened Staging

  /* ---------- Stages of a configuration ---------- */

  // A funding time with room for the stamps of a stage after since.
  function StartAfter(cfg: Config, since: Time): Time {
    NextFundingWindow((if since > 0 then since else 0) + Lead(cfg) + 1, Interval(cfg), 0)
  }

  lemma StartIsAfter(cfg: Config, since: Time)
    ensures StartAfter(cfg, since) % Interval(cfg) == 0
    ensures StartAfter(cfg, since) > Lead(cfg) + 1 && since < StartAfter(cfg, since) - Lead(cfg) - 1
  {
    var t := (if since > 0 then since else 0) + Lead(cfg) + 1;
    NextWindowIsLeastMultipleAfter(t, Interval(cfg), 0);
    assert IsMultiple(NextFundingWindow(t, Interval(cfg), 0), Interval(cfg));
  }

  // Exchanges, times and symbol of a stage; the numbers are still open.
  lemma PlacedStage(cfg: Config, symbol: string, long: Name, short: Name, early: bool, since: Time) returns (g: Stage)
    requires cfg.minTimeToFunding <= Interval(cfg) && Executable(cfg, symbol, long, short)
    requires early ==> cfg.maxOrderBookAge > 0 && cfg.minTimeToFunding <= 0
    ensures Placed(cfg, g) && g.symbol == symbol && g.long == long && g.short == short && g.early == early
    ensures g.start == StartAfter(cfg, since) && since < g.start - Lead(cfg) - 1
  {
    hide Files, StartAfter;
    StartIsAfter(cfg, since);
    var spare := long;
    if cfg.maxOrderBookAge < 0 {
      spare :| Bystander(cfg, symbol, long, short, spare);
    }
    g := Stage(symbol, long, short, spare, StartAfter(cfg, since), early, 0.0, 0.0, 0.0, 0.0);
  }

  lemma NumbersKeepPlace(cfg: Config, g: Stage, h: Stage)
    requires Placed(cfg, g)
    requires h.symbol == g.symbol && h.long == g.long && h.short == g.short && h.spare == g.spare
    requires h.start == g.start && h.early == g.early
    ensures Placed(cfg, h)
  {
    hide Files;
  }

  lemma ExecutableIsKnown(cfg: Config, symbol: string, x: Name, y: Name)
    requires Executable(cfg, symbol, x, y)
    ensures KnownExchange(x) && KnownExchange(y) && x != y
    ensures Executable(cfg, symbol, y, x)
  {
    hide Files;
    FilesIsKnown(cfg, x, symbol);
    FilesIsKnown(cfg, y, symbol);
    if cfg.maxOrderBookAge < 0 {
      var third :| Bystander(cfg, symbol, x, y, third);
      assert Bystander(cfg, symbol, y, x, third);
    }
  }

  // With a crossed long book, a route with a carry has a fruitful stage.
  lemma CrossedStageAt(cfg: Config, symbol: string, long: Name, short: Name, early: bool, since: Time)
      returns (g: Stage)
    requires cfg.minTimeToFunding <= Interval(cfg) && Executable(cfg, symbol, long, short)
    requires early ==> cfg.maxOrderBookAge > 0 && cfg.minTimeToFunding <= 0
    requires RouteRate(cfg, long, short) > 0.0
    ensures Fruitful(cfg, g) && since < g.start - Lead(cfg) - 1
    ensures g.symbol == symbol && g.long == long && g.short == short && g.early == early && g.exit <= 0.0
    ensures exists base: Stage :: base.long == long && base.short == short && g == CrossedStage(cfg, base)
    ensures g.start == StartAfter(cfg, since)
  {
    hide Executable, RouteRate, Profitable, StartAfter, UnitCarry, CrossedSize, Placed;
    var base := PlacedStage(cfg, symbol, long, short, early, since);
    CrossedIsProfitable(cfg, base);
    g := CrossedStage(cfg, base);
    NumbersKeepPlace(cfg, base, g);
  }

  // One direction of any pair does.
  lemma SomeStage(cfg: Config, early: bool, since: Time) returns (g: Stage)
    requires CanOpen(cfg)
    requires early ==> cfg.maxOrderBookAge > 0 && cfg.minTimeToFunding <= 0
    ensures Fruitful(cfg, g) && since < g.start - Lead(cfg) - 1 && g.early == early && g.exit <= 0.0
  {
    hide Executable, RouteRate, Fruitful;
    var symbol, x, y :| Executable(cfg, symbol, x, y);
    ExecutableIsKnown(cfg, symbol, x, y);
    SomeDirectionCarries(cfg, x, y);
    if RouteRate(cfg, x, y) > 0.0 {
      g := CrossedStageAt(cfg, symbol, x, y, early, since);
    } else {
      g := CrossedStageAt(cfg, symbol, y, x, early, since);
    }
  }

  lemma PayingStage(cfg: Config, since: Time) returns (g: Stage)
    requires CanOpenUncrossed(cfg) && NonnegativeCosts(cfg)
    ensures Fruitful(cfg, g) && since < g.start - Lead(cfg) - 1 && !g.early && g.exit <= 0.0 && g.bid == 1.0
  {
    hide Executable, Profitable, Pays, NonnegativeCosts, RouteRate, UnitProfit, Demand, Margin, StartAfter, Placed;
    hide LowBid, UncrossedSize, TakerFeePct;
    var symbol, long, short :| Executable(cfg, symbol, long, short) && Pays(cfg, long, short);
    var base := PlacedStage(cfg, symbol, long, short, false, since);
    UncrossedIsProfitable(cfg, base);
    g := UncrossedStage(cfg, base);
    NumbersKeepPlace(cfg, base, g);
  }

  // A run of the stage is one of the engine.
  lemma StageFeedRuns(cfg: Config, run: seq<Tick>, since: Time, uncrossed: bool, wall: Time)
    requires IsRun(cfg, run) && StageFeed(cfg, EventsOf(run), since, uncrossed, wall)
    ensures EngineRun(cfg, run, since)
    ensures Every(EventsOf(run), AsksOrdered) && Every(EventsOf(run), BidsOrdered)
    ensures uncrossed ==> Every(EventsOf(run), Uncrossed)
  {
    hide IsRun, GoodFeed, InOrder, Every, Delivered;
  }

  lemma OpenedOnIsARun(cfg: Config, g: Stage, before: seq<Tick>, run: seq<Tick>, books: map<Name, OrderBook>)
    requires OpenedOn(cfg, g, before, run, books)
    ensures run != [] && IsRun(cfg, run) && Opens(cfg, run)
    ensures EventsOf(run) == EventsOf(before) + OpeningEvents(cfg, g)
  {
    hide IsRun, After, Stocked, Supplied, StagedBoard, Staged, Opens;
  }

  // The opening run of a stage on its own.
  lemma FirstOpening(cfg: Config, g: Stage, since: Time) returns (run: seq<Tick>, books: map<Name, OrderBook>)
    requires Fruitful(cfg, g) && since < g.start - Lead(cfg) - 1
    ensures OpenedOn(cfg, g, [], run, books) && EngineRun(cfg, run, since)
    ensures StageFeed(cfg, EventsOf(run), since, g.bid <= 1.0, g.start)
    ensures Every(EventsOf(run), AsksOrdered) && Every(EventsOf(run), BidsOrdered)
    ensures g.bid <= 1.0 ==> Every(EventsOf(run), Uncrossed)
  {
    ReadyAtFirst(cfg, g, since);
    run, books := OpeningRun(cfg, g, since, []);
    hide Ready, Fruitful, StageFeed, EngineRun, Every;
    OpenedOnIsARun(cfg, g, [], run, books);
    StageFeedRuns(cfg, run, since, g.bid <= 1.0, g.start);
  }

  /* ---------- Any delivered feed ---------- */

  // Some run opens a position exactly when the configuration can open; sorted books do not change that.
  lemma OpensIff(cfg: Config, since: Time)
    ensures (exists run :: EngineRun(cfg, run, since) && After(cfg, run).ledger.added != []) <==> CanOpen(cfg)
    ensures CanOpen(cfg) ==>
              exists run :: && EngineRun(cfg, run, since) && After(cfg, run).ledger.added != []
                            && Every(EventsOf(run), AsksOrdered) && Every(EventsOf(run), BidsOrdered)
  {
    hide IsRun, After, GoodFeed, InOrder, Every, Fruitful, CanOpen, OpenedOn, StageFeed;
    if run: seq<Tick> :| EngineRun(cfg, run, since) && After(cfg, run).ledger.added != [] {
      OpenedMeansCanOpen(cfg, run, since);
    }
    if CanOpen(cfg) {
      var g := SomeStage(cfg, false, since);
      var run, books := FirstOpening(cfg, g, since);
      OpenedOnIsARun(cfg, g, [], run, books);
      OpenedHere(cfg, run);
    }
  }

  // A long enough hold, or nothing opened, leaves nothing credited early.
  lemma NotEarly(cfg: Config, run: seq<Tick>)
    requires IsRun(cfg, run) && GoodFeed(EventsOf(run))
    requires cfg.maxHoldTime >= Interval(cfg) || After(cfg, run).ledger.added == []
    ensures NeverEarly(After(cfg, run).ledger)
  {
    hide IsRun, GoodFeed, After, StoresAgree;
    if cfg.maxHoldTime >= Interval(cfg) {
      FundingIsNeverCreditedEarly(cfg, run);
    } else {
      RunIsGood(cfg, run);
      NothingAddedNothingKept(cfg, After(cfg, run).ledger);
    }
  }

  // No run credits funding early if and only if positions may be held for a whole funding interval, or
  // none can be opened at all.
  lemma NeverEarlyIff(cfg: Config, since: Time)
    ensures (forall run :: EngineRun(cfg, run, since) ==> NeverEarly(After(cfg, run).ledger)) <==>
            cfg.maxHoldTime >= Interval(cfg) || !CanOpen(cfg)
  {
    hide IsRun, GoodFeed, InOrder, After, Fruitful, CanOpen, Every, StageFeed, NeverEarly;
    if cfg.maxHoldTime < Interval(cfg) && CanOpen(cfg) {
      var g := SomeStage(cfg, false, since);
      var run := EarlyRun(cfg, g, since);
      StageFeedRuns(cfg, run, since, g.bid <= 1.0, Later(cfg, g));
    } else {
      forall run | EngineRun(cfg, run, since)
        ensures NeverEarly(After(cfg, run).ledger)
      {
        if After(cfg, run).ledger.added != [] {
          OpenedMeansCanOpen(cfg, run, since);
        }
        NotEarly(cfg, run);
      }
    }
  }

  /* ---------- Uncrossed books with sorted asks ---------- */

  // A run whose books have sorted asks and are uncrossed.
  ghost predicate UncrossedRun(cfg: Config, run: seq<Tick>, since: Time) {
    && EngineRun(cfg, run, since)
    && Every(EventsOf(run), AsksOrdered) && Every(EventsOf(run), Uncrossed)
  }

  // There, some run opens a position exactly when some executable route pays; sorted bids do not change that.
  lemma OpensUncrossedIff(cfg: Config, since: Time)
    requires NonnegativeCosts(cfg)
    ensures (exists run :: UncrossedRun(cfg, run, since) && After(cfg, run).ledger.added != []) <==>
            CanOpenUncrossed(cfg)
    ensures CanOpenUncrossed(cfg) ==>
              exists run :: && UncrossedRun(cfg, run, since) && Every(EventsOf(run), BidsOrdered)
                            && After(cfg, run).ledger.added != []
  {
    hide IsRun, After, GoodFeed, InOrder, Every, Fruitful, CanOpenUncrossed, OpenedOn, StageFeed, NonnegativeCosts;
    if run: seq<Tick> :| UncrossedRun(cfg, run, since) && After(cfg, run).ledger.added != [] {
      OpenedMeansItPays(cfg, run, since);
    }
    if CanOpenUncrossed(cfg) {
      var g := PayingStage(cfg, since);
      var run, books := FirstOpening(cfg, g, since);
      OpenedOnIsARun(cfg, g, [], run, books);
      OpenedHere(cfg, run);
      assert UncrossedRun(cfg, run, since);
    }
  }

  // There, no run credits funding early if and only if the hold spans an interval or no route pays.
  lemma NeverEarlyUncrossedIff(cfg: Config, since: Time)
    requires NonnegativeCosts(cfg)
    ensures (forall run :: UncrossedRun(cfg, run, since) ==> NeverEarly(After(cfg, run).ledger)) <==>
            cfg.maxHoldTime >= Interval(cfg) || !CanOpenUncrossed(cfg)
  {
    hide IsRun, GoodFeed, InOrder, After, Fruitful, CanOpenUncrossed, NonnegativeCosts, Every, NeverEarly, StageFeed;
    if cfg.maxHoldTime < Interval(cfg) && CanOpenUncrossed(cfg) {
      var g := PayingStage(cfg, since);
      var run := EarlyRun(cfg, g, since);
      StageFeedRuns(cfg, run, since, g.bid <= 1.0, Later(cfg, g));
      assert UncrossedRun(cfg, run, since);
    } else {
      forall run | UncrossedRun(cfg, run, since)
        ensures NeverEarly(After(cfg, run).ledger)
      {
        if After(cfg, run).ledger.added != [] {
          OpenedMeansItPays(cfg, run, since);
        }
        NotEarly(cfg, run);
      }
    }
  }

  // The shipped configuration opens positions, but only where a book is crossed or its asks are not sorted.
  lemma LocalConfigOpensOnlyOnSuchBooks(hash: string -> nat, since: Time)
    ensures exists run :: EngineRun(LocalConfig(hash), run, since) && After(LocalConfig(hash), run).ledger.added != []
    ensures forall run :: UncrossedRun(LocalConfig(hash), run, since) ==>
                            After(LocalConfig(hash), run).ledger.added == []
  {
    hide LocalConfig, IsRun, After, GoodFeed, InOrder, Every, CanOpen;
    LocalConfigCanOpen(hash);
    OpensIff(LocalConfig(hash), since);
    forall run | UncrossedRun(LocalConfig(hash), run, since)
      ensures After(LocalConfig(hash), run).ledger.added == []
    {
      LocalConfigNeverOpens(hash, run);
    }
  }

  /* ---------- Overwriting ---------- */

  lemma AloneAfterFirst(cfg: Config, g: Stage, run: seq<Tick>, books: map<Name, OrderBook>)
    requires OpenedOn(cfg, g, [], run, books) && g.exit <= 0.0
    ensures var l := After(cfg, run).ledger; l.open == map[Opened(run).id := Opened(run)] && l.lost == []
    ensures Staged(cfg, g, Opened(run))
  {
    hide IsRun, Stocked, Supplied, StagedBoard, Staged, Opens, Opened;
    assert After(cfg, []).ledger == Initial().ledger;
  }

  lemma OnlyItsSymbolIsOpen(cfg: Config, g: Stage, run: seq<Tick>, books: map<Name, OrderBook>, other: string)
    requires OpenedOn(cfg, g, [], run, books) && g.exit <= 0.0 && other != g.symbol
    ensures NoneOpen(After(cfg, run).ledger, other)
  {
    hide OpenedOn, After, Opened, Approves, NewOpportunityID;
    AloneAfterFirst(cfg, g, run, books);
  }

  // Nothing is stored of a symbol the feed never mentions.
  lemma OtherSymbolsAreUnknown(cfg: Config, run: seq<Tick>, known: string, other: string)
    requires IsRun(cfg, run) && GoodFeed(EventsOf(run)) && known != other
    requires Every(EventsOf(run), (book: OrderBook) => book.symbol == known)
    ensures Stocked(After(cfg, run), other, map[])
  {
    hide IsRun, GoodFeed, After, GoodLedger, Every;
    StoresAgreeInEveryRun(cfg, run);
    StoredBooksComeFromTheFeed(cfg, run, (book: OrderBook) => book.symbol == known);
    var s := After(cfg, run);
    if other in s.books {
      forall name
        ensures name !in s.books[other]
      {
        if name in s.books[other] {
          assert false;
        }
      }
    }
  }

  lemma StageEventsAreOfItsSymbol(cfg: Config, g: Stage)
    ensures Every(OpeningEvents(cfg, g), (book: OrderBook) => book.symbol == g.symbol)
  {
  }

  // The second stage's exchanges may go on where the first one's stopped.
  lemma SameStampsPrecede(cfg: Config, g: Stage, h: Stage)
    requires Placed(cfg, g) && Placed(cfg, h)
    requires g.long == h.long && g.short == h.short && g.start == h.start && !g.early && !h.early
    ensures Precedes(cfg, OpeningEvents(cfg, g), h)
  {
    hide Files, GoodEvent;
    var events := OpeningEvents(cfg, g);
    StageTimes(cfg, g);
    hide LongEvent, ShortEvent, SpareEvent;
    assert forall e :: e in events ==> e in {LongEvent(g), ShortEvent(g), SpareEvent(cfg, g)};
  }

  lemma FruitfulIsPlaced(cfg: Config, g: Stage)
    requires Fruitful(cfg, g)
    ensures Placed(cfg, g)
  {
    hide Placed, Profitable;
  }

  lemma ReadyAgain(cfg: Config, g: Stage, h: Stage, since: Time, run: seq<Tick>, books: map<Name, OrderBook>)
    requires OpenedOn(cfg, g, [], run, books) && Fruitful(cfg, g) && Fruitful(cfg, h) && g.exit <= 0.0
    requires g.long == h.long && g.short == h.short && g.start == h.start && !g.early && !h.early
    requires g.symbol != h.symbol && g.bid == h.bid && since < h.start - Lead(cfg) - 1
    requires StageFeed(cfg, EventsOf(run), since, g.bid <= 1.0, g.start)
    ensures Ready(cfg, h, since, run)
  {
    hide StageFeed, Fruitful, OpenedOn, OpeningEvents, IsRun, After, GoodFeed, Precedes, Stocked, Opens, Opened;
    hide NoneOpen;
    OpenedOnIsARun(cfg, g, [], run, books);
    OnlyItsSymbolIsOpen(cfg, g, run, books, h.symbol);
    assert EventsOf([]) == [] && EventsOf([]) + OpeningEvents(cfg, g) == OpeningEvents(cfg, g);
    StageFeedIsGood(cfg, EventsOf(run), since, g.bid <= 1.0, g.start);
    hide EventsOf, Every;
    StageEventsAreOfItsSymbol(cfg, g);
    OtherSymbolsAreUnknown(cfg, run, g.symbol, h.symbol);
    FruitfulIsPlaced(cfg, g);
    FruitfulIsPlaced(cfg, h);
    SameStampsPrecede(cfg, g, h);
  }

  lemma StagedAlike(cfg: Config, g: Stage, h: Stage, p: Position, q: Position)
    requires Staged(cfg, g, p) && Staged(cfg, h, q) && Placed(cfg, g)
    requires g.long == h.long && g.short == h.short && g.start == h.start
    requires NormalizedSymbol(g.symbol) == NormalizedSymbol(h.symbol)
    ensures p.id == q.id
  {
    hide Files, NormalizedSymbol;
    FilesIsKnown(cfg, g.long, g.symbol);
    FilesIsKnown(cfg, g.short, g.symbol);
    IdentifiersClashIff(g.symbol, g.long, g.short, g.start - Lead(cfg), h.symbol, h.long, h.short, g.start - Lead(cfg));
  }

  lemma OpenedOnIsStaged(cfg: Config, g: Stage, before: seq<Tick>, run: seq<Tick>, books: map<Name, OrderBook>)
    requires OpenedOn(cfg, g, before, run, books)
    ensures run != [] && Opens(cfg, run) && Staged(cfg, g, Opened(run))
  {
    hide IsRun, After, Stocked, Supplied, StagedBoard, Staged;
  }

  lemma AddedOn(cfg: Config, g: Stage, before: seq<Tick>, run: seq<Tick>, books: map<Name, OrderBook>)
    requires OpenedOn(cfg, g, before, run, books) && g.exit <= 0.0
    ensures run != [] && Opens(cfg, run) && After(cfg, run).ledger == After(cfg, before).ledger.Add(Opened(run))
  {
    hide IsRun, After, Stocked, Supplied, StagedBoard, Staged;
  }

  // The second position takes the first one's identifier.
  lemma SecondReplaces(
      cfg: Config, g: Stage, h: Stage, first: seq<Tick>, run: seq<Tick>, books: map<Name, OrderBook>,
      books2: map<Name, OrderBook>)
    requires OpenedOn(cfg, g, [], first, books) && OpenedOn(cfg, h, first, run, books2) && Placed(cfg, g)
    requires g.long == h.long && g.short == h.short && g.start == h.start && g.exit <= 0.0 && h.exit <= 0.0
    requires NormalizedSymbol(g.symbol) == NormalizedSymbol(h.symbol)
    ensures After(cfg, run).ledger.lost != []
  {
    hide OpenedOn, Approves, Placed, Staged, After, NormalizedSymbol, PositionFrom;
    OpenedOnIsStaged(cfg, h, first, run, books2);
    OpenedOnIsStaged(cfg, g, [], first, books);
    AloneAfterFirst(cfg, g, first, books);
    StagedAlike(cfg, g, h, Opened(first), Opened(run));
    AddedOn(cfg, h, first, run, books2);
  }

  // Two symbols spelled alike, opened one after the other at the same funding time.
  lemma LosingRun(cfg: Config, g: Stage, h: Stage, since: Time) returns (run: seq<Tick>)
    requires Fruitful(cfg, g) && Fruitful(cfg, h) && g.exit <= 0.0 && h.exit <= 0.0
    requires g.long == h.long && g.short == h.short && g.start == h.start && !g.early && !h.early
    requires g.symbol != h.symbol && g.bid == h.bid && since < h.start - Lead(cfg) - 1
    requires NormalizedSymbol(g.symbol) == NormalizedSymbol(h.symbol)
    ensures EngineRun(cfg, run, since) && After(cfg, run).ledger.lost != []
  {
    hide Fruitful, OpenedOn, EngineRun, StageFeed, Ready, NormalizedSymbol, Every, Staged, After, Opens, EventsOf;
    hide IsRun, Placed;
    var first, books := FirstOpening(cfg, g, since);
    ReadyAgain(cfg, g, h, since, first, books);
    var books2;
    run, books2 := OpeningRun(cfg, h, since, first);
    FruitfulIsPlaced(cfg, g);
    SecondReplaces(cfg, g, h, first, run, books, books2);
    OpenedOnIsARun(cfg, h, first, run, books2);
    StageFeedRuns(cfg, run, since, h.bid <= 1.0, h.start);
  }

  lemma ClashHasALosingRun(cfg: Config, s1: string, s2: string, long: Name, short: Name, since: Time)
      returns (run: seq<Tick>)
    requires cfg.minTimeToFunding <= Interval(cfg) && ClashOn(cfg, s1, s2, long, short)
    requires RouteRate(cfg, long, short) > 0.0
    ensures EngineRun(cfg, run, since) && After(cfg, run).ledger.lost != []
  {
    hide Executable, RouteRate, Fruitful, EngineRun, After, NormalizedSymbol, StartAfter, UnitCarry;
    var g := CrossedStageAt(cfg, s1, long, short, false, since);
    var h := CrossedStageAt(cfg, s2, long, short, false, since);
    run := LosingRun(cfg, g, h, since);
  }

  // No run ever overwrites an open position if and only if no two symbols spelled alike can be opened on the
  // same exchanges.
  lemma NothingIsLostIff(cfg: Config, since: Time)
    ensures (forall run :: EngineRun(cfg, run, since) ==> After(cfg, run).ledger.lost == []) <==> !CanClash(cfg)
  {
    hide Executable, RouteRate, IsRun, GoodFeed, InOrder, Every, After, NormalizedSymbol;
    if CanClash(cfg) {
      var s1, s2, long, short :| ClashOn(cfg, s1, s2, long, short);
      ExecutableIsKnown(cfg, s1, long, short);
      ExecutableIsKnown(cfg, s2, long, short);
      SomeDirectionCarries(cfg, long, short);
      hide EngineRun;
      if RouteRate(cfg, long, short) > 0.0 {
        var run := ClashHasALosingRun(cfg, s1, s2, long, short, since);
      } else {
        var run := ClashHasALosingRun(cfg, s1, s2, short, long, since);
      }
    }
    forall run | EngineRun(cfg, run, since) && !CanClash(cfg)
      ensures After(cfg, run).ledger.lost == []
    {
      if After(cfg, run).ledger.lost != [] {
        LostMeansCanClash(cfg, run, since);
        assert false;
      }
    }
  }

  /* ---------- Closed where it was opened ---------- */

  // The last step of the run leaves what it opened open.
  ghost predicate Survives(cfg: Config, run: seq<Tick>) {
    run != [] && Opens(cfg, run) ==> Opened(run).id in After(cfg, run).ledger.open
  }

  ghost predicate FundingCovers(b: Board) { b.books.Keys == b.funding.Keys }

  // With an exit, the staged position is due or held too long at once.
  lemma NotOnTime(cfg: Config, g: Stage, b: Board, p: Position)
    requires StagedBoard(cfg, g, b) && Staged(cfg, g, p) && g.exit > 0.0
    requires FundingCovers(b)
    requires g.early || !HoldSafe(cfg)
    requires g.early ==> cfg.maxOrderBookAge > 0
    ensures HasExit(b, p) && !OnTime(b, p, cfg.maxHoldTime)
  {
    hide OthersEmpty, NewOpportunityID;
  }

  lemma EarlyMeansAged(cfg: Config, g: Stage)
    requires Fruitful(cfg, g)
    ensures g.early ==> cfg.maxOrderBookAge > 0
  {
    hide Profitable, Files;
  }

  lemma ClosedAtOnce(cfg: Config, g: Stage, since: Time) returns (run: seq<Tick>)
    requires Fruitful(cfg, g) && since < g.start - Lead(cfg) - 1 && g.exit > 0.0
    requires g.early || !HoldSafe(cfg)
    ensures EngineRun(cfg, run, since) && !Survives(cfg, run)
  {
    var books;
    run, books := FirstOpening(cfg, g, since);
    OpenedOnIsStaged(cfg, g, [], run, books);
    hide Fruitful, StageFeed, Every, IsRun, GoodFeed, InOrder, Staged, HasExit, OnTime, HoldSafe, After, GoodBoard;
    hide Profitable, Stocked, Supplied, OpeningEvents, Admits, StagedBoard, StepBoard, Step, Legal, GoodLedger;
    LastStep(cfg, run);
    var b := LastBoard(cfg, run);
    FundingKeys(cfg, b);
    EarlyMeansAged(cfg, g);
    NotOnTime(cfg, g, b, Opened(run));
    FateOfTheOpenedPosition(cfg, run);
  }

  lemma StageWithExit(cfg: Config, early: bool, since: Time) returns (g: Stage)
    requires CanOpen(cfg)
    requires early ==> cfg.maxOrderBookAge > 0 && cfg.minTimeToFunding <= 0
    ensures Fruitful(cfg, g) && since < g.start - Lead(cfg) - 1 && g.early == early && g.exit > 0.0
  {
    hide Placed, Profitable, CanOpen, ReverseGain, StageProfit;
    var plain := SomeStage(cfg, early, since);
    ExitKeepsProfitable(cfg, plain);
    g := WithExit(cfg, plain);
    NumbersKeepPlace(cfg, plain, g);
  }

  // No step ever closes the position it opens if and only if lead and hold are safe, or none can be opened.
  lemma SurvivesIff(cfg: Config, since: Time)
    ensures (forall run :: EngineRun(cfg, run, since) ==> Survives(cfg, run)) <==>
            (LeadSafe(cfg) && HoldSafe(cfg)) || !CanOpen(cfg)
  {
    hide IsRun, GoodFeed, InOrder, Every, After, Fruitful, CanOpen, Opened;
    if !(LeadSafe(cfg) && HoldSafe(cfg)) && CanOpen(cfg) {
      hide EngineRun, Survives;
      var g := StageWithExit(cfg, !LeadSafe(cfg), since);
      var run := ClosedAtOnce(cfg, g, since);
    } else {
      forall run | EngineRun(cfg, run, since)
        ensures Survives(cfg, run)
      {
        if run != [] && Opens(cfg, run) {
          OpenedHere(cfg, run);
          OpenedMeansCanOpen(cfg, run, since);
          OpenedPositionSurvivesItsStep(cfg, run);
        }
      }
    }
  }
}
