/** The money side of conservation: the carry expected when positions were opened is still expected
    of the open ones, has been credited to the closed ones or was lost with the overwritten ones, to the cent. */
module Accounts {
  import opened Boards
  import opened Lifecycle
  import opened Positions
  import opened Refresh
  import opened Risk
  import opened Runs
  import opened Scan

  ghost predicate Balanced(l: Ledger) {
    SumLog(l.added, Expected) == SumOpen(l.open, Expected) + SumLog(l.closed, Accrued) + SumLog(l.lost, Expected)
  }

  lemma AddBalances(l: Ledger, p: Position)
    requires Balanced(l)
    ensures Balanced(l.Add(p))
  {
    hide SumOpen;
    if p.id in l.open {
      SumOpenFrom(l.open, Expected, p.id);
      assert (l.lost + [l.open[p.id]])[..|l.lost|] == l.lost;
    } else {
      assert l.lost + [] == l.lost && l.open - {p.id} == l.open;
    }
    assert (l.added + [p])[..|l.added|] == l.added;
    SumOpenFrom(l.open[p.id := p], Expected, p.id);
    assert l.open[p.id := p] - {p.id} == l.open - {p.id};
  }

  lemma RefreshOneBalances(cfg: Config, b: Board, l: Ledger, p: Position)
    requires GoodBoard(cfg, b) && GoodLedger(cfg, l) && Balanced(l)
    requires p.id in l.open && l.open[p.id] == p
    ensures Balanced(RefreshOne(b, l, p, cfg.maxHoldTime))
  {
    hide GoodBoard, Refreshed, SumOpen, SumLog, Conserved, WellOpened, Newest;
    RefreshedIsGood(cfg, b, p);
    SumOpenFrom(l.open, Expected, p.id);
    match Refreshed(b, p, cfg.maxHoldTime)
    case Skipped =>
    case Held(q) =>
      EnteredKeepsIdentity(p, q);
      SumOpenFrom(l.open[p.id := q], Expected, p.id);
      assert l.open[p.id := q] - {p.id} == l.open - {p.id};
      assert Entered(p).expectedCarryUSD == Entered(q).expectedCarryUSD;
    case Settled(q) =>
      EnteredKeepsIdentity(p, q);
      SumLogCons(q, l.closed, Accrued);
      assert Entered(p).expectedCarryUSD == Entered(q).expectedCarryUSD;
  }

  lemma {:induction false} RefreshAllBalances(cfg: Config, b: Board, l: Ledger, todo: seq<Position>)
    requires GoodBoard(cfg, b) && GoodLedger(cfg, l) && Pending(l.open, todo) && Balanced(l)
    ensures Balanced(RefreshAll(b, l, todo, cfg.maxHoldTime))
  {
    hide GoodBoard, GoodLedger, Refreshed, Balanced;
    if todo == [] {
    } else {
      var front, p := todo[..|todo| - 1], todo[|todo| - 1];
      RefreshAllBalances(cfg, b, l, front);
      RefreshAllKeepsLedger(cfg, b, l, front);
      RefreshAllIs(b, l, front, cfg.maxHoldTime);
      IdsGrow(todo);
      RefreshOneBalances(cfg, b, RefreshAll(b, l, front, cfg.maxHoldTime), p);
    }
  }

  lemma NothingBalances()
    ensures Balanced(Initial().ledger)
  {
  }

  lemma {:induction false} RunBalances(cfg: Config, run: seq<Tick>)
    requires IsRun(cfg, run) && GoodFeed(EventsOf(run))
    ensures Balanced(After(cfg, run).ledger)
  {
    hide GoodFeed, GoodBoard, GoodLedger, Balanced, IsBest, Approves, Applied, Refreshed;
    if run == [] {
      NothingBalances();
    } else {
      var front, tick := run[..|run| - 1], run[|run| - 1];
      LastStep(cfg, run);
      RunBalances(cfg, front);
      var s := After(cfg, front);
      var admitted := Admit(cfg, s.ledger, tick.choice.best, tick.event);
      if Admits(cfg, s.ledger, tick.choice.best, tick.event) {
        AddBalances(s.ledger, PositionFrom(tick.choice.best.value, tick.event.startedAt, tick.event.finishedAt));
      }
      LedgerIsKeyed(cfg, admitted);
      ListsAll(admitted.open, tick.event.update.symbol, tick.choice.todo);
      RefreshAllBalances(cfg, StepBoard(cfg, s, tick.event), admitted, tick.choice.todo);
    }
  }

  lemma {:induction false} NothingAccruedWhileOpen(cfg: Config, open: map<string, Position>)
    requires forall id :: id in open ==> GoodOpen(cfg, open[id])
    ensures SumOpen(open, Accrued) == 0.0
    decreases |open|
  {
    if open == map[] {
    } else {
      hide SumOpen, WellOpened;
      var id :| id in open;
      SumOpenFrom(open, Accrued, id);
      NothingAccruedWhileOpen(cfg, open - {id});
      assert GoodOpen(cfg, open[id]);
    }
  }

  // In every run, all carry ever expected equals what open positions still expect, what closed ones were
  // credited and what was expected of the lost ones.
  lemma {:induction false} CarryIsConserved(cfg: Config, run: seq<Tick>)
    requires IsRun(cfg, run) && GoodFeed(EventsOf(run))
    ensures var l := After(cfg, run).ledger;
            && SumLog(l.added, Expected) ==
               SumOpen(l.open, Expected) + SumLog(l.closed, Accrued) + SumLog(l.lost, Expected)
            && SumOpen(l.open, Accrued) == 0.0
            && (|l.closed| <= DEFAULT_LIMIT ==> SumLog(l.history, Accrued) == SumLog(l.closed, Accrued))
  {
    RunBalances(cfg, run);
    RunIsGood(cfg, run);
    hide IsRun, After, GoodFeed, SumOpen, SumLog, StoresAgree, Conserved;
    NothingAccruedWhileOpen(cfg, After(cfg, run).ledger.open);
  }
}
