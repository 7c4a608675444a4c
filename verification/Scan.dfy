/** One step of the engine as a transition of values.  Go iterates maps in an arbitrary order;
    the two places where that shows, which of several equally good pairs is picked and in which
    order positions are refreshed, are the step's Choice. */
module Scan {
  import opened Clock
  import opened Estimator
  import opened Execution
  import opened Funding
  import opened Market
  import opened Positions
  import opened Risk
  import opened Symbols
  import opened Wrappers

  datatype Config = Config(
    fees: map<Name, real>, maxTradeUSD: real, minProfitUSD: real, minProfitPct: real, maxOrderBookAge: Duration,
    maxDepthLevels: int, minExpectedCarryUSD: real, minExpectedCarryPct: real, basisRiskPct: real,
    funding: FundingConfig, minTimeToFunding: Duration, maxHoldTime: Duration,
    live: bool, connectors: set<Name>, symbols: seq<AsciiString>)

  const DEFAULT_FEE_PCT := 0.10

  function TakerFeePct(cfg: Config, name: Name): real {
    if name in cfg.fees then cfg.fees[name] else DEFAULT_FEE_PCT
  }

  function RiskOf(cfg: Config): RiskConfig {
    RiskConfig(cfg.maxTradeUSD, cfg.minProfitUSD, cfg.minProfitPct, cfg.minTimeToFunding)
  }

  // One book update, the wall readings taken while it is processed, whether the context is done by then,
  // and the sides whose live orders would be placed.
  datatype Event = Event(
    update: OrderBook, wall: Time, checkedAt: Time, startedAt: Time, finishedAt: Time,
    canceled: bool, placed: set<OrderSide>)

  // What a step sees of the updated symbol.
  datatype Board = Board(
    symbol: string, books: map<Name, OrderBook>, funding: map<Name, FundingSnapshot>, now: Time, wall: Time)

  /* ---------- Picking a pair ---------- */

  predicate Quoted(cfg: Config, b: Board, name: Name) {
    name in b.books && IsFresh(b.books[name], cfg.maxOrderBookAge, b.now) && name in b.funding
  }

  function InputFor(cfg: Config, b: Board, long: Name, short: Name): EstimateInput
    requires long in b.books && short in b.books && long in b.funding && short in b.funding
  {
    EstimateInput(
      b.symbol, b.books[long], b.books[short], b.funding[long], b.funding[short],
      TakerFeePct(cfg, long), TakerFeePct(cfg, short), cfg.maxTradeUSD, cfg.maxDepthLevels,
      cfg.basisRiskPct, cfg.minExpectedCarryUSD, cfg.minExpectedCarryPct, b.now)
  }

  // The accepted estimate of an ordered pair of distinct, freshly quoted exchanges.
  function Offer(cfg: Config, b: Board, long: Name, short: Name): Option<Opportunity> {
    if long != short && Quoted(cfg, b, long) && Quoted(cfg, b, short) then
      match EstimateOf(InputFor(cfg, b, long, short), b.wall)
      case Accepted(o) => Some(o)
      case Rejected(_) => None
    else None
  }

  // best is some offer with the greatest expected net profit; None when there is no offer.
  ghost predicate IsBest(cfg: Config, b: Board, best: Option<Opportunity>) {
    match best
    case None => forall long, short :: Offer(cfg, b, long, short).None?
    case Some(o) =>
      && (exists long, short :: Offer(cfg, b, long, short) == best)
      && forall long, short :: Offer(cfg, b, long, short).Some? ==>
                                 Offer(cfg, b, long, short).value.expectedNetProfitUSD <= o.expectedNetProfitUSD
  }

  /* ---------- Opening ---------- */

  function ExecutionFor(cfg: Config, o: Opportunity, e: Event): ExecutionResult {
    ExecutionOf(cfg.live, cfg.connectors, o, e.placed, e.startedAt, e.finishedAt)
  }

  function PositionFrom(o: Opportunity, startedAt: Time, finishedAt: Time): Position {
    Position(
      o.id, o.symbol,
      Leg(o.longExchange, o.longEntryPrice, 0.0, 0.0), Leg(o.shortExchange, o.shortEntryPrice, 0.0, 0.0),
      o.quantity, Open, startedAt, 0, o.targetFundingTime, o.expectedCarryUSD, 0.0, 0.0, 0.0, "", finishedAt)
  }

  ghost predicate Admits(cfg: Config, l: Ledger, best: Option<Opportunity>, e: Event) {
    && best.Some?
    && !l.HasRoute(best.value.symbol, best.value.longExchange, best.value.shortExchange)
    && Approves(RiskOf(cfg), e.canceled, best.value, e.checkedAt)
    && ExecutionFor(cfg, best.value, e).Executed?
  }

  ghost function Admit(cfg: Config, l: Ledger, best: Option<Opportunity>, e: Event): Ledger {
    if Admits(cfg, l, best, e) then l.Add(PositionFrom(best.value, e.startedAt, e.finishedAt)) else l
  }

  /* ---------- Refreshing ---------- */

  datatype Outcome = Skipped | Held(position: Position) | Settled(position: Position)

  predicate HasExit(b: Board, p: Position) {
    && p.longLeg.exchange in b.books && p.shortLeg.exchange in b.books
    && p.longLeg.exchange in b.funding && p.shortLeg.exchange in b.funding
    && b.books[p.longLeg.exchange].bids != [] && b.books[p.shortLeg.exchange].asks != []
  }

  function PriceGain(p: Position, exitLong: real, exitShort: real): real {
    (exitLong - p.longLeg.entryPrice) * p.quantity + (p.shortLeg.entryPrice - exitShort) * p.quantity
  }

  function NetRate(b: Board, p: Position): real
    requires HasExit(b, p)
  {
    b.funding[p.shortLeg.exchange].predictedFundingPct - b.funding[p.longLeg.exchange].predictedFundingPct
  }

  predicate StillHeld(b: Board, p: Position, maxHold: Duration) {
    b.now < p.targetFundingTime && Sub(b.now, p.openedAt) < maxHold
  }

  function Refreshed(b: Board, p: Position, maxHold: Duration): Outcome {
    if !HasExit(b, p) then Skipped
    else
      var exitLong, exitShort := b.books[p.longLeg.exchange].bids[0].price, b.books[p.shortLeg.exchange].asks[0].price;
      var gain := PriceGain(p, exitLong, exitShort);
      var marked := p.(unrealizedPnLUSD := gain, lastUpdatedAt := b.now);
      var exited := marked.(status := Closed, closedAt := b.now,
                            longLeg := p.longLeg.(exitPrice := exitLong),
                            shortLeg := p.shortLeg.(exitPrice := exitShort));
      if NetRate(b, p) <= 0.0 then
        Settled(exited.(realizedPnLUSD := gain, closeReason := "carry_deteriorated"))
      else if StillHeld(b, p, maxHold) then Held(marked)
      else
        Settled(exited.(accruedFundingUSD := p.expectedCarryUSD,
                        realizedPnLUSD := gain + p.expectedCarryUSD,
                        closeReason := if Sub(b.now, p.openedAt) >= maxHold
                                       then "max_hold_time" else "funding_captured"))
  }

  function RefreshOne(b: Board, l: Ledger, p: Position, maxHold: Duration): Ledger {
    match Refreshed(b, p, maxHold)
    case Skipped => l
    case Held(q) => l.Update(q)
    case Settled(q) => l.Close(q)
  }

  function RefreshAll(b: Board, l: Ledger, todo: seq<Position>, maxHold: Duration): Ledger {
    if todo == [] then l
    else RefreshOne(b, RefreshAll(b, l, todo[..|todo| - 1], maxHold), todo[|todo| - 1], maxHold)
  }

  /* ---------- The step ---------- */

  datatype State = State(books: Keyed<OrderBook>, funding: Keyed<FundingSnapshot>, ledger: Ledger)

  function Initial(): State {
    State(map[], map[], Ledger(DEFAULT_LIMIT, map[], [], [], [], []))
  }

  // The stores after the update is applied and its funding derived.
  function Applied(cfg: Config, s: State, e: Event): State {
    var u := e.update;
    s.(books := WithEntry(s.books, u.symbol, u.exchange, u),
       funding := WithEntry(s.funding, u.symbol, u.exchange,
                            SyntheticSnapshot(u, WithDefaults(cfg.funding), e.wall)))
  }

  function BoardOf(s: State, e: Event): Board {
    var symbol := e.update.symbol;
    Board(symbol, EntriesOf(s.books, symbol), EntriesOf(s.funding, symbol), e.update.updatedAt, e.wall)
  }

  datatype Choice = Choice(best: Option<Opportunity>, todo: seq<Position>)

  ghost predicate Legal(cfg: Config, s: State, e: Event, c: Choice) {
    var applied := Applied(cfg, s, e);
    && IsBest(cfg, BoardOf(applied, e), c.best)
    && Lists(Admit(cfg, s.ledger, c.best, e).open, e.update.symbol, c.todo)
  }

  ghost function Step(cfg: Config, s: State, e: Event, c: Choice): State {
    var applied := Applied(cfg, s, e);
    var admitted := Admit(cfg, s.ledger, c.best, e);
    applied.(ledger := RefreshAll(BoardOf(applied, e), admitted, c.todo, cfg.maxHoldTime))
  }

  datatype Tick = Tick(event: Event, choice: Choice)

  ghost function After(cfg: Config, run: seq<Tick>): State {
    if run == [] then Initial()
    else Step(cfg, After(cfg, run[..|run| - 1]), run[|run| - 1].event, run[|run| - 1].choice)
  }

  // Every step of the run resolves Go's map orders in a possible way.
  ghost predicate IsRun(cfg: Config, run: seq<Tick>) {
    run == [] ||
    (var front, last := run[..|run| - 1], run[|run| - 1];
     IsRun(cfg, front) && Legal(cfg, After(cfg, front), last.event, last.choice))
  }

  function EventsOf(run: seq<Tick>): seq<Event> {
    seq(|run|, i requires 0 <= i < |run| => run[i].event)
  }

  lemma RunExtends(cfg: Config, run: seq<Tick>, tick: Tick)
    requires IsRun(cfg, run) && Legal(cfg, After(cfg, run), tick.event, tick.choice)
    ensures IsRun(cfg, run + [tick])
    ensures After(cfg, run + [tick]) == Step(cfg, After(cfg, run), tick.event, tick.choice)
    ensures EventsOf(run + [tick]) == EventsOf(run) + [tick.event]
  {
    hide Legal, Step, Initial;
    assert (run + [tick])[..|run|] == run;
  }
}
