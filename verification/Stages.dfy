/** The numbers of the stages the constructed runs use: on a crossed long book, whose mark can be as high
    as it takes, and on an uncrossed book, where they suffice whenever the route pays. */
module Stages {
  import opened Boards
  import opened Estimator
  import opened Exposure
  import opened Market
  import opened Profitability
  import opened Scan
  import opened Staging

  // A share of x per unit of a quantity.
  function Share(x: real, q: real): (r: real)
    requires q > 0.0
    ensures r >= 0.0
  {
    Abs(x) / q
  }

  // A unit profit with room for the share earns at least x on the whole quantity.
  lemma ShareSuffices(q: real, unit: real, x: real)
    requires q > 0.0 && unit >= Share(x, q)
    ensures q * unit >= x
  {
    assert q * (Abs(x) / q) == Abs(x);
    assert q * (unit - Abs(x) / q) >= 0.0;
  }

  /* ---------- The crossed stage ---------- */

  function CrossedSize(cfg: Config): (q: real)
    ensures 0.0 < q && (cfg.maxTradeUSD > 0.0 ==> q <= cfg.maxTradeUSD)
  {
    if 0.0 < cfg.maxTradeUSD < 1.0 then cfg.maxTradeUSD else 1.0
  }

  // What fees and buffer cost per unit when both legs trade at one.
  function UnitCost(cfg: Config, long: Name, short: Name): real {
    2.0 * (TakerFeePct(cfg, long) / 100.0 + TakerFeePct(cfg, short) / 100.0) + cfg.basisRiskPct / 100.0
  }

  // A carry per unit that passes every threshold.
  function UnitCarry(cfg: Config, long: Name, short: Name): real {
    1.0 + Abs(UnitCost(cfg, long, short))
    + Share(cfg.minExpectedCarryUSD, CrossedSize(cfg)) + Share(cfg.minProfitUSD, CrossedSize(cfg))
    + Abs(cfg.minExpectedCarryPct) + Abs(cfg.minProfitPct) + Abs(RouteRate(cfg, long, short)) / 100.0
  }

  // The bid that puts the mark where it yields that carry.
  function CrossedStage(cfg: Config, g: Stage): Stage
    requires RouteRate(cfg, g.long, g.short) > 0.0
  {
    var mark := UnitCarry(cfg, g.long, g.short) * 100.0 / RouteRate(cfg, g.long, g.short);
    g.(bid := 2.0 * mark - 1.0, shortBid := 1.0, size := CrossedSize(cfg), exit := 0.0)
  }

  lemma CarryAtMark(q: real, c: real, rate: real)
    requires rate > 0.0 && c >= rate / 100.0
    ensures c * 100.0 / rate >= 1.0
    ensures Carry(q, c * 100.0 / rate, rate) == q * c
  {
    var m := c * 100.0 / rate;
    assert m * rate == c * 100.0;
    assert q * m * rate == q * (m * rate);
    NonnegativeFactor(rate, m - 1.0);
  }

  lemma CostAtOne(q: real, longFee: real, shortFee: real, basis: real, c: real)
    requires q > 0.0
    ensures var unit := 2.0 * (longFee / 100.0 + shortFee / 100.0) + basis / 100.0;
            var entry, buffer := EntryCost(q, 1.0, 1.0, longFee, shortFee), RiskBuffer(q, 1.0, 1.0, basis);
            && q * c - entry - entry - buffer == q * (c - unit)
            && q * (c - unit) / q * 100.0 == 100.0 * (c - unit)
  {
  }

  lemma UnitCostIs(cfg: Config, long: Name, short: Name)
    ensures UnitCost(cfg, long, short) ==
            2.0 * (TakerFeePct(cfg, long) / 100.0 + TakerFeePct(cfg, short) / 100.0) + cfg.basisRiskPct / 100.0
  {
  }

  lemma MarkOf(cfg: Config, g: Stage)
    requires RouteRate(cfg, g.long, g.short) > 0.0
    ensures (CrossedStage(cfg, g).bid + 1.0) / 2.0 ==
            UnitCarry(cfg, g.long, g.short) * 100.0 / RouteRate(cfg, g.long, g.short)
  {
    hide UnitCarry, RouteRate, CrossedSize;
  }

  lemma CrossedNumbers(cfg: Config, base: Stage)
    requires RouteRate(cfg, base.long, base.short) > 0.0
    ensures var g, q := CrossedStage(cfg, base), CrossedSize(cfg);
            var unit := UnitCarry(cfg, g.long, g.short) - UnitCost(cfg, g.long, g.short);
            && g.bid >= 1.0
            && StageCarry(cfg, g) == q * UnitCarry(cfg, g.long, g.short)
            && StageProfit(cfg, g) == q * unit
            && StageProfitPct(cfg, g) == 100.0 * unit
  {
    hide CrossedSize, RouteRate, UnitCost, TakerFeePct, Share, Carry, EntryCost, RiskBuffer;
    var long, short := base.long, base.short;
    CarryAtMark(CrossedSize(cfg), UnitCarry(cfg, long, short), RouteRate(cfg, long, short));
    hide UnitCarry;
    UnitCostIs(cfg, long, short);
    CostAtOne(CrossedSize(cfg), TakerFeePct(cfg, long), TakerFeePct(cfg, short), cfg.basisRiskPct,
              UnitCarry(cfg, long, short));
    MarkOf(cfg, base);
  }

  lemma UnitCarryCovers(cfg: Config, long: Name, short: Name)
    ensures var c, unit := UnitCarry(cfg, long, short), UnitCarry(cfg, long, short) - UnitCost(cfg, long, short);
            && c >= Share(cfg.minExpectedCarryUSD, CrossedSize(cfg))
            && unit >= 1.0 && unit >= Share(cfg.minProfitUSD, CrossedSize(cfg))
            && 100.0 * unit >= cfg.minExpectedCarryPct && 100.0 * unit >= cfg.minProfitPct
  {
    hide RouteRate, UnitCost, Share, CrossedSize;
  }

  // Whatever the fees and thresholds, a crossed book makes any route with a carry profitable.
  lemma CrossedIsProfitable(cfg: Config, base: Stage)
    requires RouteRate(cfg, base.long, base.short) > 0.0
    ensures Profitable(cfg, CrossedStage(cfg, base))
  {
    hide RouteRate, UnitCost, UnitCarry, StageCarry, StageProfit, StageProfitPct, Share, CrossedSize, ReverseGain;
    var g := CrossedStage(cfg, base);
    CrossedNumbers(cfg, base);
    var q, c := CrossedSize(cfg), UnitCarry(cfg, g.long, g.short);
    var unit := c - UnitCost(cfg, g.long, g.short);
    UnitCarryCovers(cfg, g.long, g.short);
    ShareSuffices(q, c, cfg.minExpectedCarryUSD);
    ShareSuffices(q, unit, cfg.minProfitUSD);
    FeeSign(q, unit);
  }

  /* ---------- A stage with an exit ---------- */

  // So small an exit that leaving through it earns no more than the stage.
  function WithExit(cfg: Config, g: Stage): Stage
    requires ReverseGain(cfg, g) >= 0.0
  {
    g.(exit := StageProfit(cfg, g) / (ReverseGain(cfg, g) + 1.0))
  }

  lemma GainIsNonnegative(cfg: Config, g: Stage)
    requires g.bid > 0.0
    ensures ReverseGain(cfg, g) >= 0.0
  {
    AbsBounds(TakerFeePct(cfg, g.short));
    ScaledByAbs(g.bid, TakerFeePct(cfg, g.long));
    ScaledByAbs(Max(1.0, g.bid), cfg.basisRiskPct);
    hide Abs, TakerFeePct, Max;
    assert 2.0 * g.bid * Abs(TakerFeePct(cfg, g.long)) == 2.0 * (g.bid * Abs(TakerFeePct(cfg, g.long)));
  }

  lemma PartOf(x: real, k: real)
    requires x > 0.0 && k >= 0.0
    ensures x / (k + 1.0) > 0.0 && x / (k + 1.0) * k <= x
  {
    var part := x / (k + 1.0);
    assert part * (k + 1.0) == x;
    PositiveFactor(k + 1.0, part);
  }

  // The exit enters none of the stage's numbers.
  lemma ExitChangesNothingElse(cfg: Config, g: Stage, h: Stage)
    requires h == g.(exit := h.exit)
    ensures StageCarry(cfg, h) == StageCarry(cfg, g) && StageProfit(cfg, h) == StageProfit(cfg, g)
    ensures ReverseGain(cfg, h) == ReverseGain(cfg, g)
  {
    hide RouteRate, TakerFeePct, Carry, EntryCost, RiskBuffer, Max, Abs;
  }

  lemma ExitKeepsProfitable(cfg: Config, g: Stage)
    requires Profitable(cfg, g)
    ensures ReverseGain(cfg, g) >= 0.0
    ensures WithExit(cfg, g).exit > 0.0 && Profitable(cfg, WithExit(cfg, g))
  {
    hide StageCarry, StageProfit, ReverseGain, RouteRate;
    GainIsNonnegative(cfg, g);
    PartOf(StageProfit(cfg, g), ReverseGain(cfg, g));
    ExitChangesNothingElse(cfg, g, WithExit(cfg, g));
  }

  /* ---------- The uncrossed stage ---------- */

  function Max4(a: real, b: real, c: real, d: real): (m: real)
    ensures m >= a && m >= b && m >= c && m >= d
    ensures m == a || m == b || m == c || m == d
  {
    Max(Max(a, b), Max(c, d))
  }

  // What a unit must be left with, in percent of the price.
  function Demand(cfg: Config): real {
    Max4(0.0, cfg.minExpectedCarryPct, cfg.minProfitPct,
         if cfg.maxTradeUSD > 0.0 then 100.0 * cfg.minProfitUSD / cfg.maxTradeUSD else 0.0)
  }

  // A short bid so low that the short fee leaves that much.
  function LowBid(margin: real, demand: real, fee: real): real {
    if fee <= 0.0 then 1.0
    else
      var room := (margin - demand) / (4.0 * fee);
      if room < 1.0 then room else 1.0
  }

  function UnitProfit(margin: real, demand: real, fee: real): real {
    margin - 2.0 * LowBid(margin, demand, fee) * fee
  }

  lemma LowBidLeaves(margin: real, demand: real, fee: real)
    requires fee >= 0.0 && demand >= 0.0 && margin > 0.0 && Beats(fee, margin, demand)
    ensures 0.0 < LowBid(margin, demand, fee) <= 1.0
    ensures UnitProfit(margin, demand, fee) >= demand && UnitProfit(margin, demand, fee) > 0.0
  {
    if fee > 0.0 {
      var room, bid := (margin - demand) / (4.0 * fee), LowBid(margin, demand, fee);
      assert room * (4.0 * fee) == margin - demand;
      PositiveFactor(4.0 * fee, room);
      ScaleUp(fee, bid, room);
    }
  }

  // As much as the cap allows, or as much as the absolute thresholds take.
  function UncrossedSize(cfg: Config, rate: real, unit: real): (q: real)
    requires rate > 0.0 && unit > 0.0
    ensures q > 0.0 && (cfg.maxTradeUSD > 0.0 ==> q == cfg.maxTradeUSD)
  {
    if cfg.maxTradeUSD > 0.0 then cfg.maxTradeUSD
    else 1.0 + 100.0 * Share(cfg.minExpectedCarryUSD, rate) + 100.0 * Share(cfg.minProfitUSD, unit)
  }

  lemma EnoughSize(q: real, unit: real, x: real)
    requires unit > 0.0 && q >= 100.0 * Share(x, unit)
    ensures q * unit / 100.0 >= x
  {
    assert Abs(x) / unit * unit == Abs(x);
    ScaleUp(unit, 100.0 * Share(x, unit), q);
  }

  lemma EnoughAtTheCap(cap: real, unit: real, x: real)
    requires cap > 0.0 && unit >= 100.0 * x / cap
    ensures cap * unit / 100.0 >= x
  {
    assert cap * (100.0 * x / cap) == 100.0 * x;
    ScaleUp(cap, 100.0 * x / cap, unit);
  }

  lemma SignAgrees(q: real, x: real)
    requires q > 0.0
    ensures q * x > 0.0 <==> x > 0.0
    ensures q * x >= 0.0 <==> x >= 0.0
  {
  }

  lemma CapBound(cap: real, margin: real, x: real)
    requires cap > 0.0
    ensures cap * margin / 100.0 > x <==> margin > 100.0 * x / cap
    ensures cap * margin / 100.0 >= x <==> margin >= 100.0 * x / cap
  {
    var y := 100.0 * x / cap;
    assert cap * y == 100.0 * x;
    assert cap * (margin - y) == cap * margin - 100.0 * x;
    SignAgrees(cap, margin - y);
  }

  lemma PaysBeatsDemand(cfg: Config, long: Name, short: Name)
    requires Pays(cfg, long, short)
    ensures Beats(TakerFeePct(cfg, short), Margin(cfg, long, short), Demand(cfg)) && Demand(cfg) >= 0.0
  {
    hide RouteRate, Margin, TakerFeePct, Max4;
    var margin, cap, x := Margin(cfg, long, short), cfg.maxTradeUSD, cfg.minProfitUSD;
    if cap > 0.0 {
      CapBound(cap, margin, x);
    }
  }

  // The bid and the ask of the long book are both one.
  function UncrossedStage(cfg: Config, g: Stage): Stage
    requires RouteRate(cfg, g.long, g.short) > 0.0
    requires UnitProfit(Margin(cfg, g.long, g.short), Demand(cfg), TakerFeePct(cfg, g.short)) > 0.0
  {
    var margin, demand, fee := Margin(cfg, g.long, g.short), Demand(cfg), TakerFeePct(cfg, g.short);
    g.(bid := 1.0, shortBid := LowBid(margin, demand, fee),
       size := UncrossedSize(cfg, RouteRate(cfg, g.long, g.short), UnitProfit(margin, demand, fee)), exit := 0.0)
  }

  lemma ProfitAtOne(q: real, rate: real, shortBid: real, longFee: real, shortFee: real, basis: real)
    requires q > 0.0 && shortBid <= 1.0
    ensures var entry := EntryCost(q, 1.0, shortBid, longFee, shortFee);
            var unit := rate - 2.0 * longFee - basis - 2.0 * shortBid * shortFee;
            && Carry(q, (1.0 + 1.0) / 2.0, rate) == q * rate / 100.0
            && Carry(q, (1.0 + 1.0) / 2.0, rate) - entry - entry - RiskBuffer(q, 1.0, shortBid, basis) ==
               q * unit / 100.0
            && q * unit / 100.0 / q * 100.0 == unit
  {
    assert Notional(q, 1.0, shortBid) == q;
  }

  lemma UnitProfitIs(margin: real, demand: real, fee: real)
    ensures UnitProfit(margin, demand, fee) == margin - 2.0 * LowBid(margin, demand, fee) * fee
  {
  }

  lemma DemandCovers(cfg: Config)
    ensures Demand(cfg) >= cfg.minExpectedCarryPct && Demand(cfg) >= cfg.minProfitPct
    ensures cfg.maxTradeUSD > 0.0 ==> Demand(cfg) >= 100.0 * cfg.minProfitUSD / cfg.maxTradeUSD
  {
  }

  // What the stage's numbers come to.
  lemma UncrossedNumbers(cfg: Config, base: Stage)
    requires RouteRate(cfg, base.long, base.short) > 0.0
    requires UnitProfit(Margin(cfg, base.long, base.short), Demand(cfg), TakerFeePct(cfg, base.short)) > 0.0
    requires LowBid(Margin(cfg, base.long, base.short), Demand(cfg), TakerFeePct(cfg, base.short)) <= 1.0
    ensures var g := UncrossedStage(cfg, base);
            var unit := UnitProfit(Margin(cfg, g.long, g.short), Demand(cfg), TakerFeePct(cfg, g.short));
            && StageCarry(cfg, g) == g.size * RouteRate(cfg, g.long, g.short) / 100.0
            && StageProfit(cfg, g) == g.size * unit / 100.0
            && StageProfitPct(cfg, g) == unit
  {
    hide RouteRate, Demand, TakerFeePct, LowBid, Share, Carry, EntryCost, RiskBuffer, UnitProfit;
    var long, short := base.long, base.short;
    var margin, demand, fee := Margin(cfg, long, short), Demand(cfg), TakerFeePct(cfg, short);
    var g := UncrossedStage(cfg, base);
    UnitProfitIs(margin, demand, fee);
    ProfitAtOne(g.size, RouteRate(cfg, long, short), g.shortBid, TakerFeePct(cfg, long), fee, cfg.basisRiskPct);
  }

  // Nor is the size short of what the absolute thresholds take.
  lemma UncrossedSizeSuffices(cfg: Config, rate: real, unit: real)
    requires rate > 0.0 && unit > 0.0 && unit >= Demand(cfg)
    requires cfg.maxTradeUSD > 0.0 ==> cfg.maxTradeUSD * rate / 100.0 >= cfg.minExpectedCarryUSD
    ensures var q := UncrossedSize(cfg, rate, unit);
            && q * rate / 100.0 >= cfg.minExpectedCarryUSD && q * unit / 100.0 >= cfg.minProfitUSD
  {
    hide Demand, Share;
    DemandCovers(cfg);
    var q := UncrossedSize(cfg, rate, unit);
    if cfg.maxTradeUSD > 0.0 {
      EnoughAtTheCap(q, unit, cfg.minProfitUSD);
    } else {
      EnoughSize(q, rate, cfg.minExpectedCarryUSD);
      EnoughSize(q, unit, cfg.minProfitUSD);
    }
  }

  // On uncrossed books a route that pays is profitable.
  lemma UncrossedIsProfitable(cfg: Config, base: Stage)
    requires Pays(cfg, base.long, base.short) && NonnegativeCosts(cfg)
    ensures RouteRate(cfg, base.long, base.short) > 0.0
    ensures UnitProfit(Margin(cfg, base.long, base.short), Demand(cfg), TakerFeePct(cfg, base.short)) > 0.0
    ensures Profitable(cfg, UncrossedStage(cfg, base)) && UncrossedStage(cfg, base).bid == 1.0
  {
    hide RouteRate, Demand, TakerFeePct, LowBid, UncrossedSize, StageCarry, StageProfit, StageProfitPct;
    hide UnitProfit, NonnegativeCosts, ReverseGain;
    var long, short := base.long, base.short;
    CostsAreNonnegative(cfg, long, short);
    var rate, margin := RouteRate(cfg, long, short), Margin(cfg, long, short);
    var demand, fee := Demand(cfg), TakerFeePct(cfg, short);
    PaysBeatsDemand(cfg, long, short);
    LowBidLeaves(margin, demand, fee);
    var unit := UnitProfit(margin, demand, fee);
    DemandCovers(cfg);
    UncrossedNumbers(cfg, base);
    UncrossedSizeSuffices(cfg, rate, unit);
    hide Margin, Pays;
    FeeSign(UncrossedStage(cfg, base).size, unit);
  }
}
