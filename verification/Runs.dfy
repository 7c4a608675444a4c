/** Properties of every run of the engine on a good feed. */
module Runs {
  import opened Boards
  import opened Clock
  import opened Funding
  import opened Lifecycle
  import opened Market
  import opened Positions
  import opened Refresh
  import opened Risk
  import opened Scan

  /* ---------- The invariant ---------- */

  // The latest wall reading of a run.
  function LastReading(run: seq<Tick>): Time {
    if run == [] then 0 else run[|run| - 1].event.finishedAt
  }

  ghost predicate GoodState(cfg: Config, s: State, wall: Time) {
    StoresAgree(cfg, s, wall) && GoodLedger(cfg, s.ledger) && s.ledger.limit == DEFAULT_LIMIT
  }

  // The board of a step that processes e from state s.
  function StepBoard(cfg: Config, s: State, e: Event): Board { BoardOf(Applied(cfg, s, e), e) }

  lemma StepBoardIsGood(cfg: Config, s: State, e: Event, wall: Time)
    requires GoodState(cfg, s, wall) && GoodEvent(e) && wall <= e.wall
    ensures GoodBoard(cfg, StepBoard(cfg, s, e))
  {
    hide Applied, BoardOf, GoodEvent, GoodLedger, GoodBoard;
    AppliedKeepsStores(cfg, s, e, wall);
    BoardIsGood(cfg, Applied(cfg, s, e), e);
  }

  lemma EntryLater(
      cfg: Config, symbol: string, name: Name, book: OrderBook, f: FundingSnapshot, wall: Time, later: Time)
    requires Entry(cfg, symbol, name, book, f, wall) && wall <= later
    ensures Entry(cfg, symbol, name, book, f, later)
  {
  }

  lemma StoresAgreeLater(cfg: Config, s: State, wall: Time, later: Time)
    requires StoresAgree(cfg, s, wall) && wall <= later
    ensures StoresAgree(cfg, s, later)
  {
    hide Entry;
    forall symbol, name | BothStore(cfg, s, symbol, name, wall)
      ensures BothStore(cfg, s, symbol, name, later)
    {
      EntryLater(cfg, symbol, name, s.books[symbol][name], s.funding[symbol][name], wall, later);
    }
  }

  lemma StoresIgnoreLedger(cfg: Config, s: State, t: State, wall: Time)
    requires StoresAgree(cfg, s, wall) && t.books == s.books && t.funding == s.funding
    ensures StoresAgree(cfg, t, wall)
  {
    hide Entry;
    forall symbol, name | BothStore(cfg, s, symbol, name, wall)
      ensures BothStore(cfg, t, symbol, name, wall)
    {
    }
  }

  // The step opens a position under an identifier that is in use.
  ghost predicate Replaces(cfg: Config, s: State, e: Event, c: Choice) {
    Admits(cfg, s.ledger, c.best, e) && c.best.value.id in s.ledger.open
  }

  lemma StepKeepsGood(cfg: Config, s: State, e: Event, c: Choice, wall: Time)
    requires GoodState(cfg, s, wall) && GoodEvent(e) && wall <= e.wall && Legal(cfg, s, e, c)
    ensures GoodState(cfg, Step(cfg, s, e, c), e.finishedAt)
    ensures GoodLedger(cfg, Admit(cfg, s.ledger, c.best, e))
    ensures Replaces(cfg, s, e, c) ==>
              SpelledAlike(s.ledger.open[c.best.value.id], PositionFrom(c.best.value, e.startedAt, e.finishedAt))
  {
    var b, admitted := StepBoard(cfg, s, e), Admit(cfg, s.ledger, c.best, e);
    StepBoardIsGood(cfg, s, e, wall);
    AppliedKeepsStores(cfg, s, e, wall);
    StoresAgreeLater(cfg, Applied(cfg, s, e), e.wall, e.finishedAt);
    hide StoresAgree, GoodBoard, IsBest, Refreshed, Approves, OpenAfter, SpelledAlike;
    AdmitKeepsLedger(cfg, b, s.ledger, c.best, e);
    ListsAll(admitted.open, b.symbol, c.todo);
    RefreshAllKeepsLedger(cfg, b, admitted, c.todo);
    RefreshAllIs(b, admitted, c.todo, cfg.maxHoldTime);
    StoresIgnoreLedger(cfg, Applied(cfg, s, e), Step(cfg, s, e, c), e.finishedAt);
  }

  lemma FeedPrefix(run: seq<Tick>)
    requires run != [] && GoodFeed(EventsOf(run))
    ensures var front, e := run[..|run| - 1], run[|run| - 1].event;
            && GoodFeed(EventsOf(front)) && GoodEvent(e)
            && (front != [] ==> LastReading(front) <= e.wall)
  {
    var front := run[..|run| - 1];
    var all, some := EventsOf(run), EventsOf(front);
    hide GoodEvent;
    assert forall i :: 0 <= i < |some| ==> some[i] == all[i];
    assert all[|all| - 1] == run[|run| - 1].event;
    if front != [] {
      assert all[|front| - 1] == front[|front| - 1].event;
    }
  }

  lemma InitialIsGood(cfg: Config, wall: Time)
    ensures GoodState(cfg, Initial(), wall)
  {
    assert EnteredOpen(map[]) == {};
  }

  // Before the first step every wall reading will do.
  lemma GoodAtStart(cfg: Config, front: seq<Tick>, wall: Time)
    requires GoodState(cfg, After(cfg, front), LastReading(front))
    ensures front == [] ==> GoodState(cfg, After(cfg, front), wall)
  {
    if front == [] {
      InitialIsGood(cfg, wall);
    }
  }

  lemma {:induction false} RunIsGood(cfg: Config, run: seq<Tick>)
    requires IsRun(cfg, run) && GoodFeed(EventsOf(run))
    ensures GoodState(cfg, After(cfg, run), LastReading(run))
  {
    hide GoodState, GoodFeed, Legal, Step, Initial, GoodEvent;
    if run == [] {
      InitialIsGood(cfg, 0);
    } else {
      var front, tick := run[..|run| - 1], run[|run| - 1];
      FeedPrefix(run);
      RunIsGood(cfg, front);
      GoodAtStart(cfg, front, tick.event.wall);
      StepKeepsGood(cfg, After(cfg, front), tick.event, tick.choice,
                    if front == [] then tick.event.wall else LastReading(front));
    }
  }

  // The last step of a run, from a good state and on a good board.
  lemma LastStep(cfg: Config, run: seq<Tick>)
    requires run != [] && IsRun(cfg, run) && GoodFeed(EventsOf(run))
    ensures var front, tick := run[..|run| - 1], run[|run| - 1];
            var s := After(cfg, front);
            && IsRun(cfg, front) && GoodFeed(EventsOf(front)) && GoodEvent(tick.event)
            && Legal(cfg, s, tick.event, tick.choice)
            && After(cfg, run) == Step(cfg, s, tick.event, tick.choice)
            && GoodLedger(cfg, s.ledger)
            && GoodLedger(cfg, Admit(cfg, s.ledger, tick.choice.best, tick.event))
            && GoodBoard(cfg, StepBoard(cfg, s, tick.event))
            && IsBest(cfg, StepBoard(cfg, s, tick.event), tick.choice.best)
            && (Replaces(cfg, s, tick.event, tick.choice) ==>
                  SpelledAlike(s.ledger.open[tick.choice.best.value.id],
                               PositionFrom(tick.choice.best.value, tick.event.startedAt, tick.event.finishedAt)))
  {
    var front, tick := run[..|run| - 1], run[|run| - 1];
    FeedPrefix(run);
    RunIsGood(cfg, front);
    GoodAtStart(cfg, front, tick.event.wall);
    hide GoodBoard, StoresAgree, GoodFeed, GoodEvent, Step, Admits, Admit, Initial, IsBest, SpelledAlike;
    var wall := if front == [] then tick.event.wall else LastReading(front);
    var s := After(cfg, front);
    StepBoardIsGood(cfg, s, tick.event, wall);
    StepKeepsGood(cfg, s, tick.event, tick.choice, wall);
  }

  /* ---------- Theorems over whole runs ---------- */

  // The stores always hold the same keys, each entry under its own symbol and exchange, and every
  // funding entry is the one its book yields; a long leg with asks has a positive mark.
  lemma StoresAgreeInEveryRun(cfg: Config, run: seq<Tick>)
    requires IsRun(cfg, run) && GoodFeed(EventsOf(run))
    ensures var s := After(cfg, run);
            && s.books.Keys == s.funding.Keys
            && forall symbol, name :: symbol in s.books && name in EntriesOf(s.books, symbol) ==>
                 && name in EntriesOf(s.funding, symbol)
                 && s.books[symbol][name].symbol == symbol && s.books[symbol][name].exchange == name
                 && s.funding[symbol][name] ==
                    SyntheticSnapshot(s.books[symbol][name], WithDefaults(cfg.funding), s.books[symbol][name].updatedAt)
                 && (s.books[symbol][name].asks != [] ==> s.funding[symbol][name].markPrice > 0.0)
  {
    hide GoodFeed, IsRun, After;
    RunIsGood(cfg, run);
    var s := After(cfg, run);
    hide GoodLedger;
    forall symbol, name | symbol in s.books && name in s.books[symbol]
      ensures BothStore(cfg, s, symbol, name, LastReading(run))
      ensures s.books[symbol][name].asks != [] ==> s.funding[symbol][name].markPrice > 0.0
    {
      if s.books[symbol][name].asks != [] {
        MarkIsBelowAsk(s.books[symbol][name]);
      }
    }
  }

  // At most one open position per symbol and ordered pair of exchanges; what an opening overwrites is on
  // the same exchanges, of another symbol that is spelled alike without separators.
  lemma OnePositionPerRoute(cfg: Config, run: seq<Tick>)
    requires IsRun(cfg, run) && GoodFeed(EventsOf(run))
    ensures OneRouteEach(After(cfg, run).ledger.open)
    ensures run != [] ==>
              var front, tick := run[..|run| - 1], run[|run| - 1];
              Replaces(cfg, After(cfg, front), tick.event, tick.choice) ==>
                SpelledAlike(After(cfg, front).ledger.open[tick.choice.best.value.id],
                             PositionFrom(tick.choice.best.value, tick.event.startedAt, tick.event.finishedAt))
  {
    hide GoodFeed, Step, Legal, Admits, StoresAgree, Initial, SpelledAlike;
    RunIsGood(cfg, run);
    if run != [] {
      hide GoodState, GoodLedger;
      LastStep(cfg, run);
    }
  }

  lemma {:induction false} EnteredOpenCount(open: map<string, Position>)
    requires forall id :: id in open ==> open[id].id == id
    ensures |EnteredOpen(open)| == |open|
    decreases |open|
  {
    if open == map[] {
      assert EnteredOpen(open) == {};
    } else {
      var id :| id in open;
      EnteredOpenCount(open - {id});
      EnteredOpenShrinks(open, id);
      assert |multiset(EnteredOpen(open))| == |EnteredOpen(open)|;
      assert |multiset(EnteredOpen(open - {id}))| == |EnteredOpen(open - {id})|;
    }
  }

  lemma ConservedCounts(l: Ledger)
    requires l.Keyed() && Conserved(l)
    ensures |l.added| == |l.open| + |l.closed| + |l.lost|
  {
    hide Entered;
    assert |multiset(EnteredLog(l.added))| == |l.added|;
    assert |multiset(EnteredLog(l.closed))| == |l.closed|;
    assert |multiset(EnteredLog(l.lost))| == |l.lost|;
    EnteredOpenCount(l.open);
    assert |multiset(EnteredOpen(l.open))| == |l.open|;
  }

  // Whatever was opened is open, closed or lost to an overwriting, exactly once; the history is the newest
  // of the closed ones; each closed position realized its price convergence plus the funding credited to it.
  lemma PositionsAreConserved(cfg: Config, run: seq<Tick>)
    requires IsRun(cfg, run) && GoodFeed(EventsOf(run))
    ensures var l := After(cfg, run).ledger;
            && multiset(EnteredLog(l.added)) ==
               multiset(EnteredOpen(l.open)) + multiset(EnteredLog(l.closed)) + multiset(EnteredLog(l.lost))
            && |l.added| == |l.open| + |l.closed| + |l.lost|
            && |l.history| == (if |l.closed| < 100 then |l.closed| else 100)
            && (forall k :: 0 <= k < |l.history| ==> l.history[k] == l.closed[k])
            && forall p :: p in l.closed ==> p.realizedPnLUSD == ConvergencePnL(p) + p.accruedFundingUSD
  {
    hide GoodFeed, IsRun, After, StoresAgree, ConvergencePnL;
    RunIsGood(cfg, run);
    var l := After(cfg, run).ledger;
    forall p | p in l.closed
      ensures p.realizedPnLUSD == ConvergencePnL(p) + p.accruedFundingUSD
    {
      assert GoodClosed(cfg, p);
    }
    ConservedCounts(l);
  }

  // Funding is credited only on closing, and never before the funding time unless the maximum hold is
  // shorter than the funding interval.
  lemma FundingIsNeverCreditedEarly(cfg: Config, run: seq<Tick>)
    requires IsRun(cfg, run) && GoodFeed(EventsOf(run))
    ensures var l := After(cfg, run).ledger;
            && (forall id :: id in l.open ==> l.open[id].accruedFundingUSD == 0.0)
            && forall p :: p in l.closed && cfg.maxHoldTime >= Interval(cfg) ==> p.closedAt >= p.targetFundingTime
  {
    hide GoodFeed, IsRun, After, StoresAgree, ConvergencePnL, Conserved;
    RunIsGood(cfg, run);
    var l := After(cfg, run).ledger;
    assert forall id :: id in l.open ==> GoodOpen(cfg, l.open[id]);
    forall p | p in l.closed && cfg.maxHoldTime >= Interval(cfg)
      ensures p.closedAt >= p.targetFundingTime
    {
      assert GoodClosed(cfg, p);
      SubCompares(p.closedAt, p.openedAt, cfg.maxHoldTime);
    }
  }

  // An admitted carry lasts: no position is ever closed for a deteriorated one.
  lemma CarryNeverDeteriorates(cfg: Config, run: seq<Tick>)
    requires IsRun(cfg, run) && GoodFeed(EventsOf(run))
    ensures var l := After(cfg, run).ledger;
            && (forall p :: p in l.closed ==> p.closeReason != "carry_deteriorated")
            && forall id :: id in l.open ==>
                 RouteRate(cfg, l.open[id].longLeg.exchange, l.open[id].shortLeg.exchange) > 0.0
  {
    hide GoodFeed, IsRun, After, StoresAgree, ConvergencePnL, Conserved, RouteRate;
    RunIsGood(cfg, run);
    var l := After(cfg, run).ledger;
    assert forall id :: id in l.open ==> GoodOpen(cfg, l.open[id]);
    forall p | p in l.closed
      ensures p.closeReason != "carry_deteriorated"
    {
      assert GoodClosed(cfg, p);
      assert "max_hold_time"[0] != "carry_deteriorated"[0] && "funding_captured"[0] != "carry_deteriorated"[0];
    }
  }
}
