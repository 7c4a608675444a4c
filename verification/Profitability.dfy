/** When the engine can open anything at all: conditions on the configuration alone that every
    opening meets.  Sharpness constructs the openings that show they are exact. */
module Profitability {
  import opened Boards
  import opened Clock
  import opened Depth
  import opened Estimator
  import opened Exposure
  import opened Feed
  import opened Funding
  import Identifier
  import opened Lifecycle
  import opened Market
  import opened Positions
  import opened Risk
  import opened Runs
  import opened Scan
  import opened Symbols

  /* ---------- On any feed ---------- */

  // A run on what the connectors deliver once the clock has passed since.
  ghost predicate EngineRun(cfg: Config, run: seq<Tick>, since: Time) {
    && IsRun(cfg, run) && GoodFeed(EventsOf(run))
    && InOrder(EventsOf(run)) && Every(EventsOf(run), Delivered(cfg, since))
  }

  // An exchange besides the two whose books of the symbol are filed with theirs.
  ghost predicate Bystander(cfg: Config, symbol: string, long: Name, short: Name, third: Name) {
    Files(cfg, third, symbol) && third != long && third != short
  }

  // Two exchanges that file a symbol under the same key.  When no book stamped in the past is fresh, the
  // one that triggers a step is not, and only a third exchange's can trigger the opening.
  ghost predicate Executable(cfg: Config, symbol: string, long: Name, short: Name) {
    && long != short && Files(cfg, long, symbol) && Files(cfg, short, symbol)
    && (cfg.maxOrderBookAge < 0 ==> exists third :: Bystander(cfg, symbol, long, short, third))
  }

  // The lead demanded before funding fits into a funding interval, and some pair can be executed.
  ghost predicate CanOpen(cfg: Config) {
    cfg.minTimeToFunding <= Interval(cfg) && exists symbol, long, short :: Executable(cfg, symbol, long, short)
  }

  lemma SignOfProduct(x: real, y: real)
    requires x != 0.0 && y != 0.0
    ensures x * y > 0.0 || x * (0.0 - y) > 0.0
    ensures x * (0.0 - y) == 0.0 - x * y
  {
  }

  // The four exchanges' rates all differ, so one direction of any pair has a positive carry.
  lemma SomeDirectionCarries(cfg: Config, x: Name, y: Name)
    requires KnownExchange(x) && KnownExchange(y) && x != y
    ensures RouteRate(cfg, x, y) > 0.0 || RouteRate(cfg, y, x) > 0.0
    ensures RouteRate(cfg, y, x) == 0.0 - RouteRate(cfg, x, y)
  {
    var rate, gap := WithDefaults(cfg.funding).defaultRatePct, RateScale(y) - RateScale(x);
    assert gap != 0.0;
    SignOfProduct(rate, gap);
  }

  lemma StepBoardWall(cfg: Config, s: State, e: Event)
    ensures StepBoard(cfg, s, e).wall == e.wall
  {
  }

  lemma GateFacts(cfg: Config, o: Opportunity, now: Time)
    requires Approves(RiskOf(cfg), false, o, now)
    ensures o.netFundingRatePct > 0.0
    ensures cfg.minTimeToFunding > 0 ==> o.targetFundingTime - now >= cfg.minTimeToFunding
  {
    hide Sub, Pay;
    assert !Raised(RiskOf(cfg), o, now, NetRateNotPositive);
    assert !Raised(RiskOf(cfg), o, now, WindowTooClose);
    SubComparesPositive(o.targetFundingTime, now, cfg.minTimeToFunding);
  }

  // The offer behind an opening, and what the gate let through.
  lemma OpeningOffer(cfg: Config, run: seq<Tick>) returns (long: Name, short: Name)
    requires run != [] && IsRun(cfg, run) && GoodFeed(EventsOf(run)) && Opens(cfg, run)
    ensures var s, e, p := After(cfg, run[..|run| - 1]), run[|run| - 1].event, Opened(run);
            var b := StepBoard(cfg, s, e);
            && GoodBoard(cfg, b) && Offer(cfg, b, long, short) == run[|run| - 1].choice.best
            && Offer(cfg, b, long, short).Some?
            && Approves(RiskOf(cfg), e.canceled, Offer(cfg, b, long, short).value, e.checkedAt)
            && KnownExchange(long) && KnownExchange(short) && RouteRate(cfg, long, short) > 0.0
            && p.symbol == e.update.symbol && p.longLeg.exchange == long && p.shortLeg.exchange == short
    ensures cfg.minTimeToFunding <= Interval(cfg)
  {
    hide GoodBoard, GoodLedger, GoodFeed, Offer, Step, Applied, EstimateOf, RouteRate, Raised, IsRun;
    LastStep(cfg, run);
    var s, tick := After(cfg, run[..|run| - 1]), run[|run| - 1];
    var b, o, e := StepBoard(cfg, s, tick.event), tick.choice.best.value, tick.event;
    long, short :| Offer(cfg, b, long, short) == tick.choice.best;
    OfferFacts(cfg, b, long, short);
    StepBoardWall(cfg, s, e);
    GateFacts(cfg, o, e.checkedAt);
  }

  // The exchanges of an offer are quoted, and the book of the update is not fresh itself at a negative age.
  lemma TriggerIsBystander(cfg: Config, s: State, e: Event, long: Name, short: Name)
    requires Offer(cfg, StepBoard(cfg, s, e), long, short).Some?
    ensures long != short && long in StepBoard(cfg, s, e).books && short in StepBoard(cfg, s, e).books
    ensures e.update.exchange in StepBoard(cfg, s, e).books && StepBoard(cfg, s, e).symbol == e.update.symbol
    ensures cfg.maxOrderBookAge < 0 ==> e.update.exchange != long && e.update.exchange != short
  {
    hide EstimateOf, SyntheticSnapshot;
  }

  // Every position ever opened was opened on exchanges that the configuration lets meet.
  lemma OpenedIsExecutable(cfg: Config, run: seq<Tick>, since: Time)
    requires IsRun(cfg, run) && GoodFeed(EventsOf(run)) && Every(EventsOf(run), Delivered(cfg, since))
    ensures forall p :: p in After(cfg, run).ledger.added ==>
              && cfg.minTimeToFunding <= Interval(cfg)
              && Executable(cfg, p.symbol, p.longLeg.exchange, p.shortLeg.exchange)
  {
    hide GoodBoard, GoodFeed, IsRun, After, Every, StepBoard, Offer, Opens, Opened, Approves, Files, Raised;
    forall p | p in After(cfg, run).ledger.added
      ensures cfg.minTimeToFunding <= Interval(cfg)
      ensures Executable(cfg, p.symbol, p.longLeg.exchange, p.shortLeg.exchange)
    {
      var prefix := OpenedBySomeStep(cfg, run, p);
      var long, short := OpeningOffer(cfg, prefix);
      EveryPrefix(prefix, run, Delivered(cfg, since));
      BoardFromTheFeed(cfg, prefix, Delivered(cfg, since));
      var s, e := After(cfg, prefix[..|prefix| - 1]), prefix[|prefix| - 1].event;
      var b := StepBoard(cfg, s, e);
      NamesOnBoard(cfg, b);
      StepBoardWall(cfg, s, e);
      TriggerIsBystander(cfg, s, e, long, short);
      assert Delivered(cfg, since)(b.books[long]) && Delivered(cfg, since)(b.books[short]);
      assert Delivered(cfg, since)(b.books[e.update.exchange]);
      if cfg.maxOrderBookAge < 0 {
        assert Bystander(cfg, p.symbol, long, short, e.update.exchange);
      }
    }
  }

  lemma OpenedMeansCanOpen(cfg: Config, run: seq<Tick>, since: Time)
    requires IsRun(cfg, run) && GoodFeed(EventsOf(run)) && Every(EventsOf(run), Delivered(cfg, since))
    requires After(cfg, run).ledger.added != []
    ensures CanOpen(cfg)
  {
    hide GoodFeed, IsRun, After, Executable, Every;
    OpenedIsExecutable(cfg, run, since);
    var p := After(cfg, run).ledger.added[0];
    assert Executable(cfg, p.symbol, p.longLeg.exchange, p.shortLeg.exchange);
  }

  // Enough enabled exchanges to open anything.
  ghost predicate EnoughConnectors(cfg: Config) {
    exists x, y :: && KnownExchange(x) && x in cfg.connectors && KnownExchange(y) && y in cfg.connectors && x != y
                   && (cfg.maxOrderBookAge < 0 ==>
                         exists z :: KnownExchange(z) && z in cfg.connectors && z != x && z != y)
  }

  lemma AgreedFiles(cfg: Config, name: Name, symbol: string)
    requires forall s :: s in cfg.symbols ==> FeedsAgree(s)
    ensures Files(cfg, name, symbol) <==> KnownExchange(name) && name in cfg.connectors && symbol in cfg.symbols
  {
    hide FeedsAgree, FiledAs;
    if KnownExchange(name) {
      forall s | s in cfg.symbols
        ensures FiledAs(name, s) == s
      {
        FiledAsItself(s);
      }
    }
  }

  // On symbols the feeds agree on, it takes a symbol and two exchanges, or three at a negative age.
  lemma AgreedCanOpen(cfg: Config)
    requires forall s :: s in cfg.symbols ==> FeedsAgree(s)
    ensures CanOpen(cfg) <==> cfg.minTimeToFunding <= Interval(cfg) && cfg.symbols != [] && EnoughConnectors(cfg)
  {
    hide Files, FeedsAgree;
    forall name, symbol {
      AgreedFiles(cfg, name, symbol);
    }
    if CanOpen(cfg) {
      var symbol, long, short :| Executable(cfg, symbol, long, short);
    }
    if cfg.symbols != [] && EnoughConnectors(cfg) {
      var symbol := cfg.symbols[0];
      var x, y :| && KnownExchange(x) && x in cfg.connectors && KnownExchange(y) && y in cfg.connectors && x != y
                  && (cfg.maxOrderBookAge < 0 ==>
                        exists z :: KnownExchange(z) && z in cfg.connectors && z != x && z != y);
      if cfg.maxOrderBookAge < 0 {
        var z :| KnownExchange(z) && z in cfg.connectors && z != x && z != y;
        assert Bystander(cfg, symbol, x, y, z);
      }
      assert Executable(cfg, symbol, x, y);
    }
  }

  /* ---------- On uncrossed books with sorted asks ---------- */

  // What is left of a route's carry after the long side's fees twice and the basis buffer.
  function Margin(cfg: Config, long: Name, short: Name): real {
    RouteRate(cfg, long, short) - 2.0 * TakerFeePct(cfg, long) - cfg.basisRiskPct
  }

  // A bound that a positive fee, however small the price it is paid on, keeps from being attained.
  predicate Beats(fee: real, value: real, bound: real) {
    if fee > 0.0 then value > bound else value >= bound
  }

  // The route's margin clears the relative thresholds, and what the trade cap lets it earn the absolute ones.
  ghost predicate Pays(cfg: Config, long: Name, short: Name) {
    var rate, margin, fee := RouteRate(cfg, long, short), Margin(cfg, long, short), TakerFeePct(cfg, short);
    && margin > 0.0
    && Beats(fee, margin, cfg.minExpectedCarryPct)
    && Beats(fee, margin, cfg.minProfitPct)
    && (cfg.maxTradeUSD > 0.0 ==>
          && cfg.maxTradeUSD * rate / 100.0 >= cfg.minExpectedCarryUSD
          && Beats(fee, cfg.maxTradeUSD * margin / 100.0, cfg.minProfitUSD))
  }

  ghost predicate CanOpenUncrossed(cfg: Config) {
    && cfg.minTimeToFunding <= Interval(cfg)
    && exists symbol, long, short :: Executable(cfg, symbol, long, short) && Pays(cfg, long, short)
  }

  lemma ScaleUp(k: real, a: real, b: real)
    requires k >= 0.0 && a <= b
    ensures k * a <= k * b
  {
    assert k * (b - a) >= 0.0;
  }

  lemma FeeSign(s: real, fee: real)
    requires s > 0.0 && fee >= 0.0
    ensures s * fee >= 0.0 && (fee > 0.0 ==> s * fee > 0.0)
  {
  }

  lemma MarginTimes(a: real, net: real, longFee: real, basis: real)
    ensures a * (net - 2.0 * longFee - basis) == net * a - 2.0 * (a * longFee) - basis * a
  {
  }

  lemma ProfitFromTerms(carry: real, entry: real, buffer: real, x: real, y: real, z: real, fee: real)
    requires carry <= x / 100.0 && entry == y / 100.0 + fee / 100.0 && buffer >= z / 100.0 && fee >= 0.0
    ensures carry - entry - entry - buffer <= (x - 2.0 * y - z) / 100.0
    ensures fee > 0.0 ==> carry - entry - entry - buffer < (x - 2.0 * y - z) / 100.0
  {
  }

  // With the mark no higher than the entry price, a long notional of A earns at most A times the margin.
  lemma ProfitIsBounded(
      q: real, mark: real, net: real, long: real, short: real, longFee: real, shortFee: real, basis: real)
    requires q > 0.0 && mark <= long && long > 0.0 && short > 0.0 && net > 0.0
    requires longFee >= 0.0 && shortFee >= 0.0 && basis >= 0.0
    ensures var entry := EntryCost(q, long, short, longFee, shortFee);
            var profit := Carry(q, mark, net) - entry - entry - RiskBuffer(q, long, short, basis);
            && Carry(q, mark, net) <= Pay(q, long) * net / 100.0
            && profit <= Pay(q, long) * (net - 2.0 * longFee - basis) / 100.0
            && (shortFee > 0.0 ==> profit < Pay(q, long) * (net - 2.0 * longFee - basis) / 100.0)
  {
    var a, s := q * long, q * short;
    FeeSign(q, long);
    FeeSign(q, short);
    ScaleUp(q, mark, long);
    ScaleUp(net, q * mark, a);
    ScaleUp(q, long, Max(long, short));
    ScaleUp(basis, a, q * Max(long, short));
    FeeSign(s, shortFee);
    MarginTimes(a, net, longFee, basis);
    hide Max;
    assert EntryCost(q, long, short, longFee, shortFee) == a * longFee / 100.0 + s * shortFee / 100.0;
    assert Carry(q, mark, net) <= net * a / 100.0;
    assert RiskBuffer(q, long, short, basis) >= basis * a / 100.0;
    hide Carry, EntryCost, RiskBuffer;
    ProfitFromTerms(Carry(q, mark, net), EntryCost(q, long, short, longFee, shortFee),
                    RiskBuffer(q, long, short, basis), net * a, a * longFee, basis * a, s * shortFee);
  }

  lemma NonnegativeFactor(q: real, x: real)
    requires q > 0.0 && q * x >= 0.0
    ensures x >= 0.0
  {
  }

  // The relative profit is over a notional at least as large.
  lemma RelativeProfitIsBounded(profit: real, notional: real, a: real, margin: real)
    requires 0.0 < a <= notional && profit > 0.0
    ensures profit <= a * margin / 100.0 ==> profit / notional * 100.0 <= margin
    ensures profit < a * margin / 100.0 ==> profit / notional * 100.0 < margin
  {
    var p := profit / notional;
    assert p * notional == profit;
    assert p > 0.0 by {
      PositiveFactor(notional, p);
    }
    ScaleUp(p, a, notional);
    if profit <= a * margin / 100.0 {
      NonnegativeFactor(a, margin - p * 100.0);
    }
    if profit < a * margin / 100.0 {
      PositiveFactor(a, margin - p * 100.0);
    }
  }

  lemma CostsAreNonnegative(cfg: Config, long: Name, short: Name)
    requires NonnegativeCosts(cfg)
    ensures TakerFeePct(cfg, long) >= 0.0 && TakerFeePct(cfg, short) >= 0.0 && cfg.basisRiskPct >= 0.0
  {
  }

  lemma NotionalCoversLong(q: real, long: real, short: real)
    requires q > 0.0 && long > 0.0
    ensures 0.0 < Pay(q, long) <= Notional(q, long, short)
  {
    ScaleUp(q, long, Max(long, short));
    FeeSign(q, long);
  }

  lemma PricedIsBounded(input: EstimateInput, o: Opportunity, wall: Time)
    requires o == Priced(input, o.quantity, o.longEntryPrice, o.shortEntryPrice, wall)
    requires o.quantity > 0.0 && 0.0 < input.longFunding.markPrice <= o.longEntryPrice && o.shortEntryPrice > 0.0
    requires o.netFundingRatePct > 0.0 && o.expectedNetProfitUSD > 0.0
    requires input.longFeePct >= 0.0 && input.shortFeePct >= 0.0 && input.basisRiskPct >= 0.0
    ensures var a := Pay(o.quantity, o.longEntryPrice);
            var margin := o.netFundingRatePct - 2.0 * input.longFeePct - input.basisRiskPct;
            && a > 0.0
            && o.expectedCarryUSD <= a * o.netFundingRatePct / 100.0
            && Beats(input.shortFeePct, a * margin / 100.0, o.expectedNetProfitUSD)
            && Beats(input.shortFeePct, margin, o.expectedNetProfitPct)
  {
    hide Carry, EntryCost, RiskBuffer, Pay, Notional, Identifier.NewOpportunityID;
    var a := Pay(o.quantity, o.longEntryPrice);
    var margin := o.netFundingRatePct - 2.0 * input.longFeePct - input.basisRiskPct;
    ProfitIsBounded(o.quantity, input.longFunding.markPrice, o.netFundingRatePct, o.longEntryPrice, o.shortEntryPrice,
                    input.longFeePct, input.shortFeePct, input.basisRiskPct);
    NotionalCoversLong(o.quantity, o.longEntryPrice, o.shortEntryPrice);
    var notional := Notional(o.quantity, o.longEntryPrice, o.shortEntryPrice);
    RelativeProfitIsBounded(o.expectedNetProfitUSD, notional, a, margin);
  }

  // What an offer on a sorted, uncrossed long book can show for a long notional of A.
  lemma OfferIsBounded(cfg: Config, b: Board, long: Name, short: Name)
    requires GoodBoard(cfg, b) && NonnegativeCosts(cfg) && Offer(cfg, b, long, short).Some?
    requires AsksOrdered(b.books[long]) && Uncrossed(b.books[long])
    ensures var o, margin, fee := Offer(cfg, b, long, short).value, Margin(cfg, long, short), TakerFeePct(cfg, short);
            var a := Pay(o.quantity, o.longEntryPrice);
            && a > 0.0
            && margin > 0.0
            && o.expectedCarryUSD >= cfg.minExpectedCarryUSD && o.expectedNetProfitPct >= cfg.minExpectedCarryPct
            && o.expectedCarryUSD <= a * RouteRate(cfg, long, short) / 100.0
            && Beats(fee, a * margin / 100.0, o.expectedNetProfitUSD)
            && Beats(fee, margin, o.expectedNetProfitPct)
  {
    hide GoodBoard, EstimateOf, RouteRate, TargetQuantity, Vwap, Carry, EntryCost, RiskBuffer, Max, Notional, MarkPrice;
    hide NonnegativeCosts, AsksOrdered, Uncrossed, FeedBook;
    OfferFacts(cfg, b, long, short);
    OfferInput(cfg, b, long, short);
    var input := InputFor(cfg, b, long, short);
    CostsAreNonnegative(cfg, long, short);
    AcceptedIsPriced(input, b.wall);
    AcceptedCarryIsPositive(input, b.wall);
    MarkIsBelowEntry(input, b.wall);
    BreakEven(input, b.wall);
    VwapIsPositive(input.shortBook.bids, Offer(cfg, b, long, short).value.quantity, DepthLimit(input.maxDepthLevels));
    hide Offer;
    PricedIsBounded(input, Offer(cfg, b, long, short).value, b.wall);
  }

  // An offer the gate lets through comes from a route that pays.
  lemma ApprovedOfferPays(cfg: Config, b: Board, long: Name, short: Name, now: Time)
    requires GoodBoard(cfg, b) && NonnegativeCosts(cfg) && Offer(cfg, b, long, short).Some?
    requires AsksOrdered(b.books[long]) && Uncrossed(b.books[long])
    requires Approves(RiskOf(cfg), false, Offer(cfg, b, long, short).value, now)
    requires RouteRate(cfg, long, short) > 0.0
    ensures Pays(cfg, long, short)
  {
    hide GoodBoard, Offer, RouteRate, Margin, NonnegativeCosts, AsksOrdered, Uncrossed, TakerFeePct, Pay, Sub;
    OfferIsBounded(cfg, b, long, short);
    var o, rate, margin := Offer(cfg, b, long, short).value, RouteRate(cfg, long, short), Margin(cfg, long, short);
    assert !Raised(RiskOf(cfg), o, now, NotionalAboveLimit);
    assert !Raised(RiskOf(cfg), o, now, ProfitTooSmall);
    assert !Raised(RiskOf(cfg), o, now, ProfitPctTooSmall);
    if cfg.maxTradeUSD > 0.0 {
      var a := Pay(o.quantity, o.longEntryPrice);
      ScaleUp(rate, a, cfg.maxTradeUSD);
      ScaleUp(margin, a, cfg.maxTradeUSD);
    }
  }

  // Every position ever opened was opened on a route that pays.
  lemma OpenedRoutesPay(cfg: Config, run: seq<Tick>)
    requires IsRun(cfg, run) && GoodFeed(EventsOf(run))
    requires Every(EventsOf(run), AsksOrdered) && Every(EventsOf(run), Uncrossed)
    requires NonnegativeCosts(cfg)
    ensures forall p :: p in After(cfg, run).ledger.added ==>
              && KnownExchange(p.longLeg.exchange) && KnownExchange(p.shortLeg.exchange)
              && p.longLeg.exchange != p.shortLeg.exchange
              && Pays(cfg, p.longLeg.exchange, p.shortLeg.exchange)
  {
    hide GoodFeed, Opens, Opened, IsRun, After, GoodBoard, Offer;
    hide Every, AsksOrdered, Uncrossed, NonnegativeCosts, Pays, StepBoard;
    hide RouteRate, Raised;
    forall p | p in After(cfg, run).ledger.added
      ensures KnownExchange(p.longLeg.exchange) && KnownExchange(p.shortLeg.exchange)
      ensures p.longLeg.exchange != p.shortLeg.exchange
      ensures Pays(cfg, p.longLeg.exchange, p.shortLeg.exchange)
    {
      var prefix := OpenedBySomeStep(cfg, run, p);
      EveryPrefix(prefix, run, AsksOrdered);
      EveryPrefix(prefix, run, Uncrossed);
      var long, short := OpeningOffer(cfg, prefix);
      BoardFromTheFeed(cfg, prefix, AsksOrdered);
      BoardFromTheFeed(cfg, prefix, Uncrossed);
      var s, e := After(cfg, prefix[..|prefix| - 1]), prefix[|prefix| - 1].event;
      var b := StepBoard(cfg, s, e);
      OfferInput(cfg, b, long, short);
      OfferFacts(cfg, b, long, short);
      ApprovedOfferPays(cfg, b, long, short, e.checkedAt);
    }
  }

  lemma OpenedMeansItPays(cfg: Config, run: seq<Tick>, since: Time)
    requires IsRun(cfg, run) && GoodFeed(EventsOf(run)) && Every(EventsOf(run), Delivered(cfg, since))
    requires Every(EventsOf(run), AsksOrdered) && Every(EventsOf(run), Uncrossed)
    requires NonnegativeCosts(cfg) && After(cfg, run).ledger.added != []
    ensures CanOpenUncrossed(cfg)
  {
    hide GoodFeed, IsRun, After, Executable, Every, Pays;
    OpenedIsExecutable(cfg, run, since);
    OpenedRoutesPay(cfg, run);
    var p := After(cfg, run).ledger.added[0];
    assert Executable(cfg, p.symbol, p.longLeg.exchange, p.shortLeg.exchange);
  }

  /* ---------- The shipped configuration ---------- */

  // No route's carry pays the long side's fees twice and the basis buffer.
  ghost predicate NothingPays(cfg: Config) {
    forall long, short :: KnownExchange(long) && KnownExchange(short) && long != short ==>
                            Margin(cfg, long, short) <= 0.0
  }

  lemma NothingPaysThere(cfg: Config, long: Name, short: Name)
    requires NothingPays(cfg) && KnownExchange(long) && KnownExchange(short) && long != short
    ensures !Pays(cfg, long, short)
  {
  }

  lemma NothingAddedNothingKept(cfg: Config, l: Ledger)
    requires GoodLedger(cfg, l) && l.added == []
    ensures l.open == map[] && l.closed == []
  {
    ConservedCounts(l);
  }

  // Then the engine never opens anything, in any run.
  lemma NothingOpensBelowBreakEven(cfg: Config, run: seq<Tick>)
    requires IsRun(cfg, run) && GoodFeed(EventsOf(run))
    requires Every(EventsOf(run), AsksOrdered) && Every(EventsOf(run), Uncrossed)
    requires NonnegativeCosts(cfg) && NothingPays(cfg)
    ensures var l := After(cfg, run).ledger; l.added == [] && l.open == map[] && l.closed == []
  {
    hide GoodFeed, IsRun, After, Every, AsksOrdered, Uncrossed, NonnegativeCosts, RouteRate, StoresAgree, Pays;
    OpenedRoutesPay(cfg, run);
    if After(cfg, run).ledger.added != [] {
      var p := After(cfg, run).ledger.added[0];
      NothingPaysThere(cfg, p.longLeg.exchange, p.shortLeg.exchange);
      assert false;
    }
    RunIsGood(cfg, run);
    NothingAddedNothingKept(cfg, After(cfg, run).ledger);
  }

  type Base = s: string | IsBase(s) witness "A"

  const LOCAL_BASES: seq<Base> := ["BTC", "ETH", "BNB", "XRP", "SOL", "DOGE", "LINK", "TON"]

  function AgainstUSDT(base: Base): AsciiString { base + "/USDT" }

  // The configuration shipped as configs/local.yaml.
  function LocalConfig(hash: string -> nat): Config {
    Config(
      map[BYBIT := 0.055, OKX := 0.05, HTX := 0.06, KUCOIN := 0.06],
      100.0, 0.50, 0.10, 500_000_000,
      5, 0.50, 0.08, 0.03,
      FundingConfig(0.01, 480 * MINUTE, hash), 15 * MINUTE, 540 * MINUTE,
      false, {BYBIT, OKX, HTX, KUCOIN},
      seq(|LOCAL_BASES|, i requires 0 <= i < |LOCAL_BASES| => AgainstUSDT(LOCAL_BASES[i])))
  }

  lemma LocalSymbolsAreCanonical(hash: string -> nat)
    ensures forall s :: s in LocalConfig(hash).symbols ==> CanonicalSymbol(s)
  {
    forall i | 0 <= i < |LOCAL_BASES|
      ensures CanonicalSymbol(AgainstUSDT(LOCAL_BASES[i]))
    {
      var base := LOCAL_BASES[i];
      var symbol := AgainstUSDT(base);
      assert symbol[|symbol| - 5..] == "/USDT" && symbol[..|symbol| - 5] == base;
    }
  }

  // With its eight symbols and four exchanges it can open positions on some books.
  lemma LocalConfigCanOpen(hash: string -> nat)
    ensures CanOpen(LocalConfig(hash))
  {
    hide CanonicalSymbol, FeedsAgree;
    var cfg := LocalConfig(hash);
    LocalSymbolsAreCanonical(hash);
    forall s | s in cfg.symbols
      ensures FeedsAgree(s)
    {
      CanonicalRoundTrips(s);
    }
    assert EnoughConnectors(cfg) by {
      assert KnownExchange(BYBIT) && BYBIT in cfg.connectors && KnownExchange(OKX) && OKX in cfg.connectors;
    }
    AgreedCanOpen(cfg);
  }

  lemma LocalConfigNeverPays(hash: string -> nat)
    ensures NothingPays(LocalConfig(hash)) && NonnegativeCosts(LocalConfig(hash))
  {
    var cfg := LocalConfig(hash);
    forall long, short | KnownExchange(long) && KnownExchange(short) && long != short
      ensures Margin(cfg, long, short) <= 0.0
    {
      assert RateScale(short) - RateScale(long) <= 1.8;
      assert TakerFeePct(cfg, long) >= 0.05;
    }
  }

  // As shipped, the engine can never open a position on such books.
  lemma LocalConfigNeverOpens(hash: string -> nat, run: seq<Tick>)
    requires IsRun(LocalConfig(hash), run) && GoodFeed(EventsOf(run))
    requires Every(EventsOf(run), AsksOrdered) && Every(EventsOf(run), Uncrossed)
    ensures After(LocalConfig(hash), run).ledger.added == []
  {
    hide LocalConfig, IsRun, After, GoodFeed, Every;
    LocalConfigNeverPays(hash);
    NothingOpensBelowBreakEven(LocalConfig(hash), run);
  }
}
