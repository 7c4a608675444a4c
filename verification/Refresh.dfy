/** Refreshing a symbol's positions: the result does not depend on the order Go's map gives. */
module Refresh {
  import opened Boards
  import opened Clock
  import opened Lifecycle
  import opened Positions
  import opened Scan

  // todo holds open positions, each at most once.
  ghost predicate Pending(open: map<string, Position>, todo: seq<Position>) {
    && (forall i :: 0 <= i < |todo| ==> todo[i].id in open && open[todo[i].id] == todo[i])
    && forall i, j :: 0 <= i < j < |todo| ==> todo[i].id != todo[j].id
  }

  function IdsOf(todo: seq<Position>): set<string> {
    set i | 0 <= i < |todo| :: todo[i].id
  }

  // The open positions once those chosen have been refreshed.
  function OpenAfter(
      b: Board, open: map<string, Position>, chosen: set<string>, maxHold: Duration): map<string, Position>
  {
    map id | id in open && !(id in chosen && Refreshed(b, open[id], maxHold).Settled?) ::
      if id in chosen && Refreshed(b, open[id], maxHold).Held?
      then Refreshed(b, open[id], maxHold).position else open[id]
  }

  function Settlement(b: Board, p: Position, maxHold: Duration): seq<Position> {
    match Refreshed(b, p, maxHold)
    case Settled(q) => [q]
    case _ => []
  }

  // What refreshing todo closes, newest first.
  function SettledLog(b: Board, todo: seq<Position>, maxHold: Duration): seq<Position> {
    if todo == [] then []
    else Settlement(b, todo[|todo| - 1], maxHold) + SettledLog(b, todo[..|todo| - 1], maxHold)
  }

  lemma RefreshedKeepsId(b: Board, p: Position, maxHold: Duration)
    ensures !Refreshed(b, p, maxHold).Skipped? ==> Refreshed(b, p, maxHold).position.id == p.id
  {
  }

  lemma OpenAfterOneMore(b: Board, open: map<string, Position>, chosen: set<string>, p: Position, maxHold: Duration)
    requires p.id in open && open[p.id] == p && p.id !in chosen
    ensures var before, after := OpenAfter(b, open, chosen, maxHold), OpenAfter(b, open, chosen + {p.id}, maxHold);
            && p.id in before
            && after == match Refreshed(b, p, maxHold)
                        case Skipped => before
                        case Held(q) => before[p.id := q]
                        case Settled(q) => before - {p.id}
  {
    hide Refreshed;
  }

  lemma NothingChosen(b: Board, open: map<string, Position>, maxHold: Duration)
    ensures OpenAfter(b, open, IdsOf([]), maxHold) == open
  {
    hide Refreshed;
  }

  lemma IdsGrow(todo: seq<Position>)
    requires todo != []
    ensures IdsOf(todo) == IdsOf(todo[..|todo| - 1]) + {todo[|todo| - 1].id}
    ensures (forall i, j :: 0 <= i < j < |todo| ==> todo[i].id != todo[j].id) ==>
              todo[|todo| - 1].id !in IdsOf(todo[..|todo| - 1])
  {
    var front := todo[..|todo| - 1];
    forall id | id in IdsOf(todo)
      ensures id in IdsOf(front) + {todo[|todo| - 1].id}
    {
      var i :| 0 <= i < |todo| && todo[i].id == id;
      if i < |front| {
        assert front[i].id == id;
      }
    }
    forall id | id in IdsOf(front)
      ensures id in IdsOf(todo)
    {
      var i :| 0 <= i < |front| && front[i].id == id;
      assert todo[i].id == id;
    }
  }

  // The loop computes the order-free description above.
  lemma {:induction false} RefreshAllIs(b: Board, l: Ledger, todo: seq<Position>, maxHold: Duration)
    requires Pending(l.open, todo)
    ensures var after := RefreshAll(b, l, todo, maxHold);
            && after.open == OpenAfter(b, l.open, IdsOf(todo), maxHold)
            && after.closed == SettledLog(b, todo, maxHold) + l.closed
            && after.added == l.added && after.lost == l.lost && after.limit == l.limit
  {
    hide Refreshed, OpenAfter, IdsOf;
    if todo == [] {
      NothingChosen(b, l.open, maxHold);
    } else {
      var front, p := todo[..|todo| - 1], todo[|todo| - 1];
      RefreshAllIs(b, l, front, maxHold);
      RefreshedKeepsId(b, p, maxHold);
      IdsGrow(todo);
      OpenAfterOneMore(b, l.open, IdsOf(front), p, maxHold);
    }
  }

  lemma ListsAll(open: map<string, Position>, symbol: string, todo: seq<Position>)
    requires Lists(open, symbol, todo) && forall id :: id in open ==> open[id].id == id
    ensures Pending(open, todo)
    ensures forall id :: id in open ==> (id in IdsOf(todo) <==> open[id].symbol == symbol)
  {
    forall id | id in open && open[id].symbol == symbol
      ensures id in IdsOf(todo)
    {
      var i :| 0 <= i < |todo| && todo[i] == open[id];
    }
  }

  ghost predicate DistinctIds(log: seq<Position>) {
    forall i, j :: 0 <= i < j < |log| ==> log[i].id != log[j].id
  }

  // The log holds exactly the settlements of the listed positions.
  lemma {:induction false} SettledLogHolds(b: Board, todo: seq<Position>, maxHold: Duration)
    ensures forall q :: q in SettledLog(b, todo, maxHold) <==>
                        exists p :: p in todo && Refreshed(b, p, maxHold) == Settled(q)
  {
    if todo == [] {
    } else {
      hide Refreshed;
      var front, last := todo[..|todo| - 1], todo[|todo| - 1];
      SettledLogHolds(b, front, maxHold);
      assert todo == front + [last];
    }
  }

  lemma SettledLogUnfolds(b: Board, todo: seq<Position>, maxHold: Duration)
    requires todo != []
    ensures var log, rest := SettledLog(b, todo, maxHold), SettledLog(b, todo[..|todo| - 1], maxHold);
            match Refreshed(b, todo[|todo| - 1], maxHold)
            case Settled(q) => log == [q] + rest
            case _ => log == rest
  {
    hide Refreshed;
  }

  lemma {:induction false} SettledLogIsDistinct(b: Board, todo: seq<Position>, maxHold: Duration)
    requires DistinctIds(todo)
    ensures DistinctIds(SettledLog(b, todo, maxHold))
  {
    if todo == [] {
    } else {
      hide Refreshed;
      var front, last := todo[..|todo| - 1], todo[|todo| - 1];
      var rest := SettledLog(b, front, maxHold);
      SettledLogIsDistinct(b, front, maxHold);
      SettledLogHolds(b, front, maxHold);
      RefreshedKeepsId(b, last, maxHold);
      forall k | 0 <= k < |rest|
        ensures rest[k].id != last.id
      {
        assert rest[k] in rest;
        var p :| p in front && Refreshed(b, p, maxHold) == Settled(rest[k]);
        RefreshedKeepsId(b, p, maxHold);
      }
      hide SettledLog;
      SettledLogUnfolds(b, todo, maxHold);
    }
  }

  lemma {:induction false} DistinctElementsCountOnce(log: seq<Position>, q: Position)
    requires DistinctIds(log)
    ensures multiset(log)[q] == if q in log then 1 else 0
  {
    if log == [] {
    } else {
      var front := log[..|log| - 1];
      DistinctElementsCountOnce(front, q);
      assert log == front + [log[|log| - 1]];
    }
  }

  lemma SameChoiceSameOpen(
      b: Board, open: map<string, Position>, chosen1: set<string>, chosen2: set<string>, maxHold: Duration)
    requires forall id :: id in open ==> (id in chosen1 <==> id in chosen2)
    ensures OpenAfter(b, open, chosen1, maxHold) == OpenAfter(b, open, chosen2, maxHold)
  {
    hide Refreshed;
  }

  lemma SettledByBoth(b: Board, todo1: seq<Position>, todo2: seq<Position>, maxHold: Duration)
    requires forall p :: p in todo1 <==> p in todo2
    ensures forall q :: q in SettledLog(b, todo1, maxHold) ==> q in SettledLog(b, todo2, maxHold)
  {
    hide Refreshed, SettledLog;
    SettledLogHolds(b, todo1, maxHold);
    SettledLogHolds(b, todo2, maxHold);
    forall q | q in SettledLog(b, todo1, maxHold)
      ensures q in SettledLog(b, todo2, maxHold)
    {
      var p :| p in todo1 && Refreshed(b, p, maxHold) == Settled(q);
      assert p in todo2;
    }
  }

  lemma SameElements(log1: seq<Position>, log2: seq<Position>)
    requires DistinctIds(log1)
    requires DistinctIds(log2)
    requires forall q :: q in log1 ==> q in log2
    requires forall q :: q in log2 ==> q in log1
    ensures multiset(log1) == multiset(log2)
  {
    forall q
      ensures multiset(log1)[q] == multiset(log2)[q]
    {
      DistinctElementsCountOnce(log1, q);
      DistinctElementsCountOnce(log2, q);
    }
  }

  lemma SameSettlements(b: Board, todo1: seq<Position>, todo2: seq<Position>, maxHold: Duration)
    requires DistinctIds(todo1)
    requires DistinctIds(todo2)
    requires forall p :: p in todo1 <==> p in todo2
    ensures multiset(SettledLog(b, todo1, maxHold)) == multiset(SettledLog(b, todo2, maxHold))
  {
    hide Refreshed, SettledLog;
    SettledLogIsDistinct(b, todo1, maxHold);
    SettledLogIsDistinct(b, todo2, maxHold);
    SettledByBoth(b, todo1, todo2, maxHold);
    SettledByBoth(b, todo2, todo1, maxHold);
    SameElements(SettledLog(b, todo1, maxHold), SettledLog(b, todo2, maxHold));
  }

  // Whatever the order, the same positions stay open, with the same marks, and the same ones are closed.
  lemma RefreshOrderIsIrrelevant(b: Board, l: Ledger, todo1: seq<Position>, todo2: seq<Position>, maxHold: Duration)
    requires l.Keyed() && Lists(l.open, b.symbol, todo1) && Lists(l.open, b.symbol, todo2)
    ensures var after1, after2 := RefreshAll(b, l, todo1, maxHold), RefreshAll(b, l, todo2, maxHold);
            && after1.open == after2.open && after1.added == after2.added
            && multiset(after1.closed) == multiset(after2.closed)
  {
    hide Refreshed, RefreshAll, OpenAfter, IdsOf, SettledLog;
    ListsAll(l.open, b.symbol, todo1);
    ListsAll(l.open, b.symbol, todo2);
    RefreshAllIs(b, l, todo1, maxHold);
    RefreshAllIs(b, l, todo2, maxHold);
    SameChoiceSameOpen(b, l.open, IdsOf(todo1), IdsOf(todo2), maxHold);
    assert forall p :: p in todo1 <==> p in todo2;
    SameSettlements(b, todo1, todo2, maxHold);
  }

  lemma {:induction false} RefreshAllKeepsLedger(cfg: Config, b: Board, l: Ledger, todo: seq<Position>)
    requires GoodBoard(cfg, b) && GoodLedger(cfg, l) && Pending(l.open, todo)
    ensures GoodLedger(cfg, RefreshAll(b, l, todo, cfg.maxHoldTime))
  {
    hide GoodBoard, GoodLedger, Refreshed;
    if todo == [] {
    } else {
      var front, p := todo[..|todo| - 1], todo[|todo| - 1];
      RefreshAllKeepsLedger(cfg, b, l, front);
      RefreshAllIs(b, l, front, cfg.maxHoldTime);
      IdsGrow(todo);
      RefreshOneKeepsLedger(cfg, b, RefreshAll(b, l, front, cfg.maxHoldTime), p);
    }
  }
}
