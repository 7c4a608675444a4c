/** What holds of every position, from the step that opens it to the one that closes it. */
module Lifecycle {
  import opened Boards
  import opened Clock
  import opened Estimator
  import opened Funding
  import opened Identifier
  import opened Market
  import opened Positions
  import opened Risk
  import opened Scan
  import opened Wrappers

  function Interval(cfg: Config): Duration { WithDefaults(cfg.funding).fundingInterval }

  // Facts fixed when a position is opened.
  ghost predicate WellOpened(cfg: Config, p: Position) {
    && KnownExchange(p.longLeg.exchange) && KnownExchange(p.shortLeg.exchange)
    && p.longLeg.exchange != p.shortLeg.exchange
    && (exists t :: p.id == NewOpportunityID(p.symbol, p.longLeg.exchange, p.shortLeg.exchange, t))
    && p.quantity > 0.0
    && RouteRate(cfg, p.longLeg.exchange, p.shortLeg.exchange) > 0.0
    && p.targetFundingTime <= p.openedAt + Interval(cfg)
  }

  ghost predicate GoodOpen(cfg: Config, p: Position) {
    && WellOpened(cfg, p)
    && p.status == Open && p.closedAt == 0 && p.closeReason == ""
    && p.accruedFundingUSD == 0.0 && p.realizedPnLUSD == 0.0
    && p.longLeg.exitPrice == 0.0 && p.shortLeg.exitPrice == 0.0
  }

  // Realized profit is the price convergence between entry and exit plus the funding credited.
  function ConvergencePnL(p: Position): real {
    p.quantity * ((p.shortLeg.entryPrice - p.longLeg.entryPrice) - (p.shortLeg.exitPrice - p.longLeg.exitPrice))
  }

  ghost predicate GoodClosed(cfg: Config, p: Position) {
    && WellOpened(cfg, p)
    && p.status == Closed
    && p.realizedPnLUSD == ConvergencePnL(p) + p.accruedFundingUSD
    && p.accruedFundingUSD == p.expectedCarryUSD
    && p.closeReason == (if Sub(p.closedAt, p.openedAt) >= cfg.maxHoldTime then "max_hold_time" else "funding_captured")
    && (p.closedAt >= p.targetFundingTime || Sub(p.closedAt, p.openedAt) >= cfg.maxHoldTime)
  }

  /* ---------- Conservation ---------- */

  // A position with everything the engine rewrites later blanked out.
  function Entered(p: Position): Position {
    p.(status := Open, closedAt := 0, closeReason := "", lastUpdatedAt := 0,
       accruedFundingUSD := 0.0, realizedPnLUSD := 0.0, unrealizedPnLUSD := 0.0,
       longLeg := p.longLeg.(exitPrice := 0.0), shortLeg := p.shortLeg.(exitPrice := 0.0))
  }

  function EnteredLog(log: seq<Position>): seq<Position> {
    seq(|log|, i requires 0 <= i < |log| => Entered(log[i]))
  }

  function EnteredOpen(open: map<string, Position>): set<Position> {
    set id | id in open :: Entered(open[id])
  }

  // Every position added is, with what it was entered with, open, closed or lost, and exactly once.
  ghost predicate Conserved(l: Ledger) {
    multiset(EnteredLog(l.added)) ==
    multiset(EnteredOpen(l.open)) + multiset(EnteredLog(l.closed)) + multiset(EnteredLog(l.lost))
  }

  // Identifiers tell open positions apart, so entering one adds exactly one element.
  lemma EnteredOpenGrows(open: map<string, Position>, p: Position)
    requires p.id !in open && forall id :: id in open ==> open[id].id == id
    ensures Entered(p) !in EnteredOpen(open)
    ensures EnteredOpen(open[p.id := p]) == EnteredOpen(open) + {Entered(p)}
  {
    var grown := open[p.id := p];
    assert forall id :: id in open ==> Entered(open[id]).id == id && grown[id] == open[id];
    assert grown[p.id] == p;
    hide Entered;
    forall q | q in EnteredOpen(open) + {Entered(p)}
      ensures q in EnteredOpen(grown)
    {
      var id :| id in grown && q == Entered(grown[id]);
    }
  }

  lemma EnteredOpenShrinks(open: map<string, Position>, id: string)
    requires id in open && forall i :: i in open ==> open[i].id == i
    ensures multiset(EnteredOpen(open)) == multiset(EnteredOpen(open - {id})) + multiset{Entered(open[id])}
  {
    hide Entered, EnteredOpen;
    EnteredOpenGrows(open - {id}, open[id]);
    assert (open - {id})[id := open[id]] == open;
  }

  lemma EnteredLogGrows(log: seq<Position>, p: Position)
    ensures EnteredLog(log + [p]) == EnteredLog(log) + [Entered(p)]
    ensures EnteredLog([p] + log) == [Entered(p)] + EnteredLog(log)
  {
    hide Entered;
  }

  lemma AddConserves(l: Ledger, p: Position)
    requires l.Keyed() && Conserved(l)
    ensures Conserved(l.Add(p))
  {
    hide Entered, EnteredOpen, EnteredLog;
    EnteredLogGrows(l.added, p);
    if p.id in l.open {
      EnteredLogGrows(l.lost, l.open[p.id]);
      EnteredOpenShrinks(l.open, p.id);
      EnteredOpenGrows(l.open - {p.id}, p);
      assert (l.open - {p.id})[p.id := p] == l.open[p.id := p];
    } else {
      EnteredOpenGrows(l.open, p);
      assert l.lost + [] == l.lost;
    }
  }

  lemma UpdateConserves(l: Ledger, p: Position)
    requires l.Keyed() && Conserved(l) && p.id in l.open && Entered(p) == Entered(l.open[p.id])
    ensures Conserved(l.Update(p))
  {
    hide Entered, EnteredOpen, EnteredLog;
    var rest := l.open - {p.id};
    EnteredOpenGrows(rest, p);
    EnteredOpenGrows(rest, l.open[p.id]);
    assert rest[p.id := p] == l.open[p.id := p];
    assert rest[p.id := l.open[p.id]] == l.open;
  }

  lemma CloseConserves(l: Ledger, p: Position)
    requires l.Keyed() && Conserved(l) && p.id in l.open && Entered(p) == Entered(l.open[p.id])
    ensures Conserved(l.Close(p))
  {
    hide Entered, EnteredOpen, EnteredLog;
    EnteredLogGrows(l.closed, p);
    EnteredOpenShrinks(l.open, p.id);
  }

  /* ---------- The ledger invariant ---------- */

  predicate SameRoute(p: Position, q: Position) {
    OnRoute(p, q.symbol, q.longLeg.exchange, q.shortLeg.exchange)
  }

  ghost predicate OneRouteEach(open: map<string, Position>) {
    forall i, j :: i in open && j in open && SameRoute(open[i], open[j]) ==> i == j
  }

  ghost predicate GoodLedger(cfg: Config, l: Ledger) {
    && l.Keyed()
    && (forall id :: id in l.open ==> GoodOpen(cfg, l.open[id]))
    && (forall i :: 0 <= i < |l.closed| ==> GoodClosed(cfg, l.closed[i]))
    && OneRouteEach(l.open)
    && l.history == Newest(l.closed, l.limit)
    && Conserved(l)
  }

  // Different symbols on the same two exchanges that print the same identifiers.
  ghost predicate SpelledAlike(p: Position, q: Position) {
    && p.symbol != q.symbol && NormalizedSymbol(p.symbol) == NormalizedSymbol(q.symbol)
    && p.longLeg.exchange == q.longLeg.exchange && p.shortLeg.exchange == q.shortLeg.exchange
  }

  lemma LedgerIsKeyed(cfg: Config, l: Ledger)
    requires GoodLedger(cfg, l)
    ensures l.Keyed()
  {
  }

  // An identifier in use on another route belongs to another symbol, spelled alike without separators.
  lemma ReplacedIsAnotherSymbol(cfg: Config, l: Ledger, p: Position)
    requires GoodLedger(cfg, l) && WellOpened(cfg, p)
    requires !l.HasRoute(p.symbol, p.longLeg.exchange, p.shortLeg.exchange)
    ensures p.id in l.open ==> SpelledAlike(l.open[p.id], p)
  {
    hide NewOpportunityID, NormalizedSymbol, Conserved, GoodClosed, RouteRate, Newest;
    if p.id in l.open {
      var q := l.open[p.id];
      assert GoodOpen(cfg, q);
      var s :| p.id == NewOpportunityID(p.symbol, p.longLeg.exchange, p.shortLeg.exchange, s);
      var t :| q.id == NewOpportunityID(q.symbol, q.longLeg.exchange, q.shortLeg.exchange, t);
      IdentifiersClashIff(p.symbol, p.longLeg.exchange, p.shortLeg.exchange, s,
                          q.symbol, q.longLeg.exchange, q.shortLeg.exchange, t);
      assert !OnRoute(q, p.symbol, p.longLeg.exchange, p.shortLeg.exchange);
    }
  }

  lemma AdmittedIsGood(cfg: Config, b: Board, l: Ledger, best: Option<Opportunity>, e: Event)
    requires GoodBoard(cfg, b) && IsBest(cfg, b, best) && Admits(cfg, l, best, e)
    requires b.wall <= e.startedAt
    ensures GoodOpen(cfg, PositionFrom(best.value, e.startedAt, e.finishedAt))
  {
    hide NewOpportunityID, Offer;
    var o := best.value;
    var long, short :| Offer(cfg, b, long, short) == best;
    OfferFacts(cfg, b, long, short);
    assert !Raised(RiskOf(cfg), o, e.checkedAt, NetRateNotPositive);
  }

  lemma AdmitKeepsLedger(cfg: Config, b: Board, l: Ledger, best: Option<Opportunity>, e: Event)
    requires GoodBoard(cfg, b) && IsBest(cfg, b, best) && b.wall <= e.startedAt
    requires GoodLedger(cfg, l)
    ensures GoodLedger(cfg, Admit(cfg, l, best, e))
    ensures Admits(cfg, l, best, e) && best.value.id in l.open ==>
              SpelledAlike(l.open[best.value.id], PositionFrom(best.value, e.startedAt, e.finishedAt))
  {
    hide NewOpportunityID, IsBest, Approves, GoodBoard, Conserved, SpelledAlike;
    if Admits(cfg, l, best, e) {
      var p := PositionFrom(best.value, e.startedAt, e.finishedAt);
      AdmittedIsGood(cfg, b, l, best, e);
      ReplacedIsAnotherSymbol(cfg, l, p);
      AddConserves(l, p);
      var open' := l.Add(p).open;
      assert forall i :: i in l.open ==> !SameRoute(l.open[i], p) && !SameRoute(p, l.open[i]);
      assert OneRouteEach(open');
    }
  }

  // What p would have realized from prices at the quotes it could be left at.
  function ExitPnL(b: Board, p: Position): real
    requires HasExit(b, p)
  {
    ConvergencePnL(p.(longLeg := p.longLeg.(exitPrice := b.books[p.longLeg.exchange].bids[0].price),
                      shortLeg := p.shortLeg.(exitPrice := b.books[p.shortLeg.exchange].asks[0].price)))
  }

  lemma GainIsConvergence(p: Position, q: Position, exitLong: real, exitShort: real)
    requires q.quantity == p.quantity
    requires q.longLeg == p.longLeg.(exitPrice := exitLong) && q.shortLeg == p.shortLeg.(exitPrice := exitShort)
    ensures PriceGain(p, exitLong, exitShort) == ConvergencePnL(q)
  {
  }

  // Refreshing one open position on a good board: the carry has not changed, so it is held or credited.
  lemma RefreshedIsGood(cfg: Config, b: Board, p: Position)
    requires GoodBoard(cfg, b) && GoodOpen(cfg, p)
    ensures match Refreshed(b, p, cfg.maxHoldTime)
            case Skipped => !HasExit(b, p)
            case Held(q) =>
              && GoodOpen(cfg, q) && Entered(q) == Entered(p) && StillHeld(b, p, cfg.maxHoldTime)
              && HasExit(b, p) && q.unrealizedPnLUSD == ExitPnL(b, p) && q.lastUpdatedAt == b.now
            case Settled(q) =>
              && GoodClosed(cfg, q) && Entered(q) == Entered(p) && !StillHeld(b, p, cfg.maxHoldTime)
              && HasExit(b, p) && q.unrealizedPnLUSD == ExitPnL(b, p) && q.lastUpdatedAt == b.now
              && q.closedAt == b.now
  {
    hide NewOpportunityID, Sub, PriceGain, ConvergencePnL, GoodBoard, RouteRate;
    if HasExit(b, p) {
      RouteRateOnBoard(cfg, b, p.longLeg.exchange, p.shortLeg.exchange);
      var exitLong, exitShort := b.books[p.longLeg.exchange].bids[0].price, b.books[p.shortLeg.exchange].asks[0].price;
      match Refreshed(b, p, cfg.maxHoldTime)
      case Held(q) => GainIsConvergence(p, p.(longLeg := p.longLeg.(exitPrice := exitLong),
                                              shortLeg := p.shortLeg.(exitPrice := exitShort)), exitLong, exitShort);
      case Settled(q) =>
        GainIsConvergence(p, p.(longLeg := p.longLeg.(exitPrice := exitLong),
                                shortLeg := p.shortLeg.(exitPrice := exitShort)), exitLong, exitShort);
        GainIsConvergence(p, q, exitLong, exitShort);
    }
  }

  lemma EnteredKeepsIdentity(p: Position, q: Position)
    requires Entered(p) == Entered(q)
    ensures p.id == q.id && p.symbol == q.symbol
    ensures p.longLeg.exchange == q.longLeg.exchange && p.shortLeg.exchange == q.shortLeg.exchange
  {
  }

  lemma RefreshOneKeepsLedger(cfg: Config, b: Board, l: Ledger, p: Position)
    requires GoodBoard(cfg, b) && GoodLedger(cfg, l)
    requires p.id in l.open && l.open[p.id] == p
    ensures GoodLedger(cfg, RefreshOne(b, l, p, cfg.maxHoldTime))
  {
    hide Conserved, GoodBoard, Refreshed, GoodOpen, GoodClosed;
    RefreshedIsGood(cfg, b, p);
    match Refreshed(b, p, cfg.maxHoldTime)
    case Skipped =>
    case Held(q) =>
      EnteredKeepsIdentity(p, q);
      UpdateConserves(l, q);
    case Settled(q) =>
      EnteredKeepsIdentity(p, q);
      CloseConserves(l, q);
  }
}
