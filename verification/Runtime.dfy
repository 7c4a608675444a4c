/** The engine itself: stores, position book and scanner as objects updated in place, shown to
    take exactly the steps of Scan. */
module Runtime {
  import opened Boards
  import opened Clock
  import opened Estimator
  import opened Execution
  import opened Funding
  import opened Lifecycle
  import opened Market
  import opened Positions
  import opened Risk
  import opened Runs
  import opened Scan
  import opened Wrappers

  // best among the pairs seen so far
  ghost predicate BestSeen(cfg: Config, b: Board, seen: set<(Name, Name)>, best: Option<Opportunity>) {
    && (best.Some? ==> exists long, short :: Offer(cfg, b, long, short) == best)
    && forall long, short ::
         (long, short) in seen && Offer(cfg, b, long, short).Some? ==>
           && best.Some?
           && Offer(cfg, b, long, short).value.expectedNetProfitUSD <= best.value.expectedNetProfitUSD
  }

  lemma NoOffer(cfg: Config, b: Board, long: Name, short: Name)
    requires long == short || !Quoted(cfg, b, long) || !Quoted(cfg, b, short)
    ensures Offer(cfg, b, long, short).None?
  {
  }

  lemma OfferIs(cfg: Config, b: Board, long: Name, short: Name)
    requires long != short && Quoted(cfg, b, long) && Quoted(cfg, b, short)
    ensures Offer(cfg, b, long, short) ==
            match EstimateOf(InputFor(cfg, b, long, short), b.wall)
            case Accepted(o) => Some(o)
            case Rejected(_) => None
  {
    hide EstimateOf;
  }

  lemma BestOfAll(cfg: Config, b: Board, seen: set<(Name, Name)>, best: Option<Opportunity>)
    requires BestSeen(cfg, b, seen, best)
    requires forall l, s :: l in b.books && s in b.books ==> (l, s) in seen
    ensures IsBest(cfg, b, best)
  {
    forall long, short | Offer(cfg, b, long, short).Some?
      ensures best.Some? && Offer(cfg, b, long, short).value.expectedNetProfitUSD <= best.value.expectedNetProfitUSD
    {
      assert (long, short) in seen;
    }
  }

  // app.Scanner
  class Scanner {
    const cfg: Config
    const books: BookStore
    const funding: FundingStore
    const positions: PositionBook

    constructor (cfg: Config, books: BookStore, funding: FundingStore, positions: PositionBook)
      ensures this.cfg == cfg && this.books == books && this.funding == funding && this.positions == positions
    {
      this.cfg := cfg;
      this.books := books;
      this.funding := funding;
      this.positions := positions;
    }

    method OnOrderBookUpdate(e: Event) returns (ghost c: Choice)
      requires positions.View().Keyed()
      modifies positions
      ensures positions.View().Keyed()
      ensures var b := Board(e.update.symbol, EntriesOf(books.books, e.update.symbol),
                             EntriesOf(funding.snapshots, e.update.symbol), e.update.updatedAt, e.wall);
              var admitted := Admit(cfg, old(positions.View()), c.best, e);
              && IsBest(cfg, b, c.best)
              && Lists(admitted.open, e.update.symbol, c.todo)
              && positions.View() == RefreshAll(b, admitted, c.todo, cfg.maxHoldTime)
    {
      hide Approves, RefreshAll, IsBest, Lists, ExecutionOf, PositionFrom, ReasonsAgainst;
      var current := books.Snapshot(e.update.symbol);
      var snapshots := funding.Snapshot(e.update.symbol);
      var b := Board(e.update.symbol, current, snapshots, e.update.updatedAt, e.wall);
      var best := BestOpportunity(b);
      if best.Some? {
        var o := best.value;
        var isOpen := positions.HasOpen(o.symbol, o.longExchange, o.shortExchange);
        if !isOpen {
          var decision := Check(RiskOf(cfg), e.canceled, o, e.checkedAt);
          if decision.approved {
            var result := Execute(cfg.live, cfg.connectors, o, e.placed, e.startedAt, e.finishedAt);
            if result.Executed? {
              positions.Add(PositionFrom(o, result.startedAt, result.finishedAt));
            }
          }
        }
      }
      ghost var todo := RefreshPositions(b);
      c := Choice(best, todo);
    }

    // The offer of greatest expected net profit, whatever order the books are enumerated in.
    method BestOpportunity(b: Board) returns (best: Option<Opportunity>)
      ensures IsBest(cfg, b, best)
      ensures best.Some? ==> exists long, short :: Offer(cfg, b, long, short) == best
      ensures forall long, short :: Offer(cfg, b, long, short).Some? ==>
                best.Some? && Offer(cfg, b, long, short).value.expectedNetProfitUSD <= best.value.expectedNetProfitUSD
    {
      hide Offer, EstimateOf, IsFresh;
      best := None;
      ghost var seen: set<(Name, Name)> := {};
      var longs := b.books.Keys;
      while longs != {}
        invariant longs <= b.books.Keys
        invariant forall l, s :: l in b.books && l !in longs && s in b.books ==> (l, s) in seen
        invariant BestSeen(cfg, b, seen, best)
        decreases |longs|
      {
        var long :| long in longs;
        longs := longs - {long};
        var shorts := b.books.Keys;
        if !Quoted(cfg, b, long) {
          seen := seen + set s | s in b.books :: (long, s);
          forall s {
            NoOffer(cfg, b, long, s);
          }
          shorts := {};
        }
        while shorts != {}
          invariant shorts <= b.books.Keys
          invariant shorts != {} ==> Quoted(cfg, b, long)
          invariant forall l, s :: l in b.books && l !in longs && l != long && s in b.books ==> (l, s) in seen
          invariant forall s :: s in b.books && s !in shorts ==> (long, s) in seen
          invariant BestSeen(cfg, b, seen, best)
          decreases |shorts|
        {
          var short :| short in shorts;
          shorts := shorts - {short};
          seen := seen + {(long, short)};
          if long == short || !Quoted(cfg, b, short) {
            NoOffer(cfg, b, long, short);
            continue;
          }
          var estimate := EstimateFunding(InputFor(cfg, b, long, short), b.wall);
          OfferIs(cfg, b, long, short);
          if estimate.Rejected? {
            continue;
          }
          var opportunity := estimate.opportunity;
          if best.None? || opportunity.expectedNetProfitUSD > best.value.expectedNetProfitUSD {
            best := Some(opportunity);
          }
        }
      }
      BestOfAll(cfg, b, seen, best);
    }

    method RefreshPositions(b: Board) returns (ghost todo: seq<Position>)
      requires positions.View().Keyed()
      modifies positions
      ensures positions.View().Keyed()
      ensures Lists(old(positions.View()).open, b.symbol, todo)
      ensures positions.View() == RefreshAll(b, old(positions.View()), todo, cfg.maxHoldTime)
    {
      var list := positions.OpenPositionsBySymbol(b.symbol);
      todo := list;
      for i := 0 to |list|
        invariant positions.View() == RefreshAll(b, old(positions.View()), list[..i], cfg.maxHoldTime)
        invariant positions.View().Keyed()
      {
        assert list[..i + 1][..i] == list[..i];
        var position := list[i];
        if !HasExit(b, position) {
          continue;
        }
        var exitLong := b.books[position.longLeg.exchange].bids[0].price;
        var exitShort := b.books[position.shortLeg.exchange].asks[0].price;
        var unrealized := PriceGain(position, exitLong, exitShort);
        position := position.(unrealizedPnLUSD := unrealized, lastUpdatedAt := b.now);
        if NetRate(b, position) <= 0.0 {
          position := position.(status := Closed, closedAt := b.now,
            longLeg := position.longLeg.(exitPrice := exitLong),
            shortLeg := position.shortLeg.(exitPrice := exitShort));
          position := position.(realizedPnLUSD := unrealized, closeReason := "carry_deteriorated");
          positions.Close(position);
          continue;
        }
        if StillHeld(b, position, cfg.maxHoldTime) {
          positions.Update(position);
          continue;
        }
        position := position.(status := Closed, closedAt := b.now,
          longLeg := position.longLeg.(exitPrice := exitLong),
          shortLeg := position.shortLeg.(exitPrice := exitShort));
        position := position.(accruedFundingUSD := position.expectedCarryUSD);
        position := position.(realizedPnLUSD := unrealized + position.accruedFundingUSD);
        if Sub(b.now, position.openedAt) >= cfg.maxHoldTime {
          position := position.(closeReason := "max_hold_time");
        } else {
          position := position.(closeReason := "funding_captured");
        }
        positions.Close(position);
      }
      assert list[..|list|] == list;
    }
  }

  // app.Runtime
  class Runtime {
    const cfg: Config
    const books: BookStore
    const funding: FundingStore
    const positions: PositionBook
    const scanner: Scanner

    ghost predicate Valid()
      reads this, positions
    {
      && scanner.cfg == cfg && scanner.books == books && scanner.funding == funding && scanner.positions == positions
      && funding.cfg == WithDefaults(cfg.funding)
      && positions.View().Keyed()
    }

    ghost function Current(): State
      reads books, funding, positions
    {
      State(books.books, funding.snapshots, positions.View())
    }

    constructor (config: Config)
      ensures Valid() && cfg == config && Current() == Initial()
      ensures fresh(books) && fresh(funding) && fresh(positions)
    {
      cfg := config;
      var b := new BookStore();
      var f := new FundingStore(config.funding);
      var p := new PositionBook(DEFAULT_LIMIT);
      var s := new Scanner(config, b, f, p);
      books, funding, positions, scanner := b, f, p, s;
    }

    // One iteration of runScanner.
    method Process(e: Event) returns (ghost c: Choice)
      requires Valid()
      modifies books, funding, positions
      ensures Valid()
      ensures Legal(cfg, old(Current()), e, c)
      ensures Current() == Step(cfg, old(Current()), e, c)
    {
      books.Apply(e.update);
      var snapshot := funding.ApplySyntheticFromOrderBook(e.update, e.wall);
      c := scanner.OnOrderBookUpdate(e);
    }

    // runScanner on the updates it receives before its context is done: the engine performs a run of
    // Scan, and on a good feed its position book ends up sound.
    method RunScanner(events: seq<Event>) returns (ghost run: seq<Tick>)
      requires Valid() && Current() == Initial()
      modifies books, funding, positions
      ensures Valid()
      ensures EventsOf(run) == events && IsRun(cfg, run)
      ensures Current() == After(cfg, run)
      ensures GoodFeed(events) ==> GoodLedger(cfg, positions.View())
    {
      hide Legal, Step, Initial, GoodFeed, GoodLedger;
      run := [];
      for i := 0 to |events|
        invariant Valid()
        invariant EventsOf(run) == events[..i] && IsRun(cfg, run)
        invariant Current() == After(cfg, run)
      {
        ghost var c := Process(events[i]);
        RunExtends(cfg, run, Tick(events[i], c));
        run := run + [Tick(events[i], c)];
      }
      assert events[..|events|] == events;
      if GoodFeed(events) {
        RunIsGood(cfg, run);
      }
    }
  }
}
