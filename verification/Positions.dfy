/** The position book: open positions by identifier and a bounded, newest-first history. */
module Positions {
  import opened Clock
  import opened Market

  datatype Leg = Leg(exchange: Name, entryPrice: real, exitPrice: real, feeUSD: real)

  datatype Status = Opening | Open | Closing | Closed

  datatype Position = Position(
    id: string, symbol: string, longLeg: Leg, shortLeg: Leg, quantity: real, status: Status,
    openedAt: Time, closedAt: Time, targetFundingTime: Time,
    expectedCarryUSD: real, accruedFundingUSD: real, realizedPnLUSD: real, unrealizedPnLUSD: real,
    closeReason: string, lastUpdatedAt: Time)

  const DEFAULT_LIMIT := 100

  function Newest(log: seq<Position>, limit: nat): seq<Position> {
    if |log| > limit then log[..limit] else log
  }

  predicate OnRoute(p: Position, symbol: string, long: Name, short: Name) {
    p.symbol == symbol && p.longLeg.exchange == long && p.shortLeg.exchange == short
  }

  // The open position that an entry under this identifier replaces, if there is one.
  function Replaced(open: map<string, Position>, id: string): seq<Position> {
    if id in open then [open[id]] else []
  }

  /** The book as a value.  Besides the two stored collections it keeps the whole past: every position
      added, oldest first, every one closed, newest first, and every one lost by being overwritten. */
  datatype Ledger = Ledger(
    limit: nat, open: map<string, Position>, history: seq<Position>,
    added: seq<Position>, closed: seq<Position>, lost: seq<Position>)
  {
    function Add(p: Position): Ledger {
      this.(open := open[p.id := p], added := added + [p], lost := lost + Replaced(open, p.id))
    }

    function Update(p: Position): Ledger {
      if p.id in open then this.(open := open[p.id := p]) else this
    }

    function Close(p: Position): Ledger {
      this.(open := open - {p.id}, history := Newest([p] + history, limit), closed := [p] + closed)
    }

    ghost predicate Keyed() {
      limit > 0 && forall id :: id in open ==> open[id].id == id
    }

    ghost predicate HasRoute(symbol: string, long: Name, short: Name) {
      exists id :: id in open && OnRoute(open[id], symbol, long, short)
    }
  }

  // What the three operations do to each part of the book.
  lemma AddChanges(l: Ledger, p: Position)
    ensures var r := l.Add(p);
            && r.open == l.open[p.id := p] && r.history == l.history && r.limit == l.limit
            && r.added == l.added + [p] && r.closed == l.closed
            && r.lost == l.lost + if p.id in l.open then [l.open[p.id]] else []
  {
  }

  lemma UpdateChanges(l: Ledger, p: Position)
    ensures var r := l.Update(p);
            && (if p.id in l.open then r.open == l.open[p.id := p] else r.open == l.open)
            && r.history == l.history && r.limit == l.limit
            && r.added == l.added && r.closed == l.closed && r.lost == l.lost
  {
  }

  lemma CloseChanges(l: Ledger, p: Position)
    ensures var r := l.Close(p);
            && r.open == l.open - {p.id} && r.limit == l.limit
            && r.history == (if |l.history| < l.limit then [p] + l.history else ([p] + l.history)[..l.limit])
            && r.added == l.added && r.closed == [p] + l.closed && r.lost == l.lost
  {
  }

  // todo lists the chosen open positions, each once, in some order.
  ghost predicate Lists(open: map<string, Position>, symbol: string, todo: seq<Position>) {
    && (forall i :: 0 <= i < |todo| ==> todo[i].id in open && open[todo[i].id] == todo[i] && todo[i].symbol == symbol)
    && (forall i, j :: 0 <= i < j < |todo| ==> todo[i].id != todo[j].id)
    && (forall id :: id in open && open[id].symbol == symbol ==> open[id] in todo)
  }

  // The entries of the summary: open_positions, open_unrealized_pnl_usd and so on.
  datatype Metric = OpenPositions | OpenUnrealizedPnL | OpenAccruedFunding | RealizedPnL | RealizedFunding

  datatype Amount = Unrealized | Accrued | Realized | Expected

  function AmountOf(p: Position, a: Amount): real {
    match a
    case Unrealized => p.unrealizedPnLUSD
    case Accrued => p.accruedFundingUSD
    case Realized => p.realizedPnLUSD
    case Expected => p.expectedCarryUSD
  }

  ghost function SumOpen(open: map<string, Position>, a: Amount): real {
    if open == map[] then 0.0
    else
      var id :| id in open;
      AmountOf(open[id], a) + SumOpen(open - {id}, a)
  }

  // The sum does not depend on which entry is taken first.
  lemma {:induction false} SumOpenFrom(open: map<string, Position>, a: Amount, id: string)
    requires id in open
    ensures SumOpen(open, a) == AmountOf(open[id], a) + SumOpen(open - {id}, a)
    decreases |open|
  {
    var first :| first in open && SumOpen(open, a) == AmountOf(open[first], a) + SumOpen(open - {first}, a);
    if first != id {
      SumOpenFrom(open - {first}, a, id);
      SumOpenFrom(open - {id}, a, first);
      assert open - {first} - {id} == open - {id} - {first};
    }
  }

  function SumLog(log: seq<Position>, a: Amount): real {
    if log == [] then 0.0 else SumLog(log[..|log| - 1], a) + AmountOf(log[|log| - 1], a)
  }

  lemma {:induction false} SumLogCons(p: Position, log: seq<Position>, a: Amount)
    ensures SumLog([p] + log, a) == AmountOf(p, a) + SumLog(log, a)
  {
    if log == [] {
      assert ([p] + log)[..0] == [];
    } else {
      SumLogCons(p, log[..|log| - 1], a);
      assert ([p] + log)[..|log|] == [p] + log[..|log| - 1];
    }
  }

  // Which field each of the sums is over: what one position adds to it.
  lemma SumsOverOpen(open: map<string, Position>, id: string)
    requires id in open
    ensures forall a :: SumOpen(map[], a) == 0.0
    ensures SumOpen(open, Unrealized) == open[id].unrealizedPnLUSD + SumOpen(open - {id}, Unrealized)
    ensures SumOpen(open, Accrued) == open[id].accruedFundingUSD + SumOpen(open - {id}, Accrued)
    ensures SumOpen(open, Expected) == open[id].expectedCarryUSD + SumOpen(open - {id}, Expected)
  {
    SumOpenFrom(open, Unrealized, id);
    SumOpenFrom(open, Accrued, id);
    SumOpenFrom(open, Expected, id);
  }

  lemma SumsOverLog(log: seq<Position>, p: Position)
    ensures forall a :: SumLog([], a) == 0.0
    ensures SumLog(log + [p], Realized) == SumLog(log, Realized) + p.realizedPnLUSD
    ensures SumLog(log + [p], Accrued) == SumLog(log, Accrued) + p.accruedFundingUSD
    ensures SumLog(log + [p], Expected) == SumLog(log, Expected) + p.expectedCarryUSD
  {
    assert (log + [p])[..|log|] == log;
  }

  // The entry is there exactly when present, and then has that value.
  predicate Holds(summary: map<Metric, real>, m: Metric, present: bool, value: real) {
    (m in summary <==> present) && (present ==> summary[m] == value)
  }

  // A missing entry counts as zero.
  function At(m: map<Metric, real>, key: Metric): real {
    if key in m then m[key] else 0.0
  }

  function Increase(m: map<Metric, real>, key: Metric, amount: real): map<Metric, real> {
    m[key := At(m, key) + amount]
  }

  // state.PositionBook
  class PositionBook {
    const limit: nat
    var open: map<string, Position>
    var history: seq<Position>
    ghost var added: seq<Position>
    ghost var closed: seq<Position>
    ghost var lost: seq<Position>

    ghost function View(): Ledger
      reads this
    {
      Ledger(limit, open, history, added, closed, lost)
    }

    constructor (bound: int)
      ensures View() == Ledger(if bound <= 0 then DEFAULT_LIMIT else bound, map[], [], [], [], [])
    {
      limit := if bound <= 0 then DEFAULT_LIMIT else bound;
      open := map[];
      history := [];
      added := [];
      closed := [];
      lost := [];
    }

    method Add(position: Position)
      modifies this
      ensures View() == old(View()).Add(position)
    {
      lost := lost + Replaced(open, position.id);
      open := open[position.id := position];
      added := added + [position];
    }

    method Update(position: Position)
      modifies this
      ensures View() == old(View()).Update(position)
    {
      if position.id in open {
        open := open[position.id := position];
      }
    }

    method Close(position: Position)
      modifies this
      ensures View() == old(View()).Close(position)
    {
      open := open - {position.id};
      history := [position] + history;
      if |history| > limit {
        history := history[..limit];
      }
      closed := [position] + closed;
    }

    method HasOpen(symbol: string, long: Name, short: Name) returns (found: bool)
      ensures found <==> View().HasRoute(symbol, long, short)
      ensures found <==> exists id :: id in open && open[id].symbol == symbol
                                      && open[id].longLeg.exchange == long && open[id].shortLeg.exchange == short
    {
      var todo := open.Keys;
      while todo != {}
        invariant todo <= open.Keys
        invariant forall id :: id in open && id !in todo ==> !OnRoute(open[id], symbol, long, short)
        decreases |todo|
      {
        var id :| id in todo;
        if OnRoute(open[id], symbol, long, short) {
          return true;
        }
        todo := todo - {id};
      }
      return false;
    }

    method OpenPositionsBySymbol(symbol: string) returns (out: seq<Position>)
      requires View().Keyed()
      ensures Lists(open, symbol, out)
    {
      out := [];
      var todo := open.Keys;
      while todo != {}
        invariant todo <= open.Keys
        invariant forall i :: 0 <= i < |out| ==>
                                && out[i].id in open && out[i].id !in todo
                                && open[out[i].id] == out[i] && out[i].symbol == symbol
        invariant forall i, j :: 0 <= i < j < |out| ==> out[i].id != out[j].id
        invariant forall id :: id in open && id !in todo && open[id].symbol == symbol ==> open[id] in out
        decreases |todo|
      {
        var id :| id in todo;
        if open[id].symbol == symbol {
          out := out + [open[id]];
        }
        todo := todo - {id};
      }
    }

    method Summary() returns (summary: map<Metric, real>)
      ensures Holds(summary, OpenPositions, true, |open| as real)
      ensures Holds(summary, OpenUnrealizedPnL, open != map[], SumOpen(open, Unrealized))
      ensures Holds(summary, OpenAccruedFunding, open != map[], SumOpen(open, Accrued))
      ensures Holds(summary, RealizedPnL, history != [], SumLog(history, Realized))
      ensures Holds(summary, RealizedFunding, history != [], SumLog(history, Accrued))
    {
      summary := OpenTotals();
      summary := HistoryTotals(summary);
    }

    // Summary's first loop, over the open positions in any order.
    method OpenTotals() returns (summary: map<Metric, real>)
      ensures Holds(summary, OpenPositions, true, |open| as real)
      ensures Holds(summary, OpenUnrealizedPnL, open != map[], SumOpen(open, Unrealized))
      ensures Holds(summary, OpenAccruedFunding, open != map[], SumOpen(open, Accrued))
      ensures RealizedPnL !in summary && RealizedFunding !in summary
    {
      summary := map[OpenPositions := |open| as real];
      var rest := open;
      while rest != map[]
        invariant Holds(summary, OpenPositions, true, |open| as real)
        invariant Holds(summary, OpenUnrealizedPnL, rest != open, SumOpen(open, Unrealized) - SumOpen(rest, Unrealized))
        invariant Holds(summary, OpenAccruedFunding, rest != open, SumOpen(open, Accrued) - SumOpen(rest, Accrued))
        invariant RealizedPnL !in summary && RealizedFunding !in summary
        invariant |rest| <= |open| && (rest == open || |rest| < |open|)
        decreases |rest|
      {
        var id :| id in rest;
        var position := rest[id];
        SumOpenFrom(rest, Unrealized, id);
        SumOpenFrom(rest, Accrued, id);
        summary := Increase(summary, OpenUnrealizedPnL, position.unrealizedPnLUSD);
        summary := Increase(summary, OpenAccruedFunding, position.accruedFundingUSD);
        rest := rest - {id};
      }
    }

    // Summary's second loop, over the history.
    method HistoryTotals(before: map<Metric, real>) returns (summary: map<Metric, real>)
      requires RealizedPnL !in before && RealizedFunding !in before
      ensures forall m :: m in before ==> m in summary && summary[m] == before[m]
      ensures forall m :: m in summary ==> m in before || m == RealizedPnL || m == RealizedFunding
      ensures Holds(summary, RealizedPnL, history != [], SumLog(history, Realized))
      ensures Holds(summary, RealizedFunding, history != [], SumLog(history, Accrued))
    {
      summary := before;
      for i := 0 to |history|
        invariant forall m :: m in before ==> m in summary && summary[m] == before[m]
        invariant forall m :: m in summary ==> m in before || m == RealizedPnL || m == RealizedFunding
        invariant Holds(summary, RealizedPnL, i > 0, SumLog(history[..i], Realized))
        invariant Holds(summary, RealizedFunding, i > 0, SumLog(history[..i], Accrued))
      {
        assert history[..i + 1][..i] == history[..i];
        summary := Increase(summary, RealizedPnL, history[i].realizedPnLUSD);
        summary := Increase(summary, RealizedFunding, history[i].accruedFundingUSD);
      }
      assert history[..|history|] == history;
    }
  }
}
