/** The gate every opportunity passes before it is executed. */
module Risk {
  import opened Clock
  import opened Depth
  import opened Estimator

  datatype RiskConfig = RiskConfig(
    maxTradeUSD: real, minProfitUSD: real, minProfitPct: real, minTimeToFunding: Duration)

  datatype Decision = Decision(approved: bool, reasons: seq<string>, checkedAt: Time)

  datatype Concern =
    | NotionalNotPositive | NotionalAboveLimit | ProfitTooSmall | ProfitPctTooSmall | SameExchange
    | QuantityNotPositive | NoTarget | WindowTooClose | NetRateNotPositive

  predicate Raised(cfg: RiskConfig, o: Opportunity, now: Time, c: Concern) {
    match c
    case NotionalNotPositive => Pay(o.quantity, o.longEntryPrice) <= 0.0
    case NotionalAboveLimit => cfg.maxTradeUSD > 0.0 && Pay(o.quantity, o.longEntryPrice) > cfg.maxTradeUSD
    case ProfitTooSmall => o.expectedNetProfitUSD < cfg.minProfitUSD
    case ProfitPctTooSmall => o.expectedNetProfitPct < cfg.minProfitPct
    case SameExchange => o.longExchange == o.shortExchange
    case QuantityNotPositive => o.quantity <= 0.0
    case NoTarget => IsZero(o.targetFundingTime)
    case WindowTooClose => cfg.minTimeToFunding > 0 && Sub(o.targetFundingTime, now) < cfg.minTimeToFunding
    case NetRateNotPositive => o.netFundingRatePct <= 0.0
  }

  ghost predicate Approves(cfg: RiskConfig, canceled: bool, o: Opportunity, now: Time) {
    !canceled && forall c: Concern :: !Raised(cfg, o, now, c)
  }

  // A conditional append adds this.
  function Only(holds: bool, reason: string): (added: seq<string>)
    ensures holds ==> added == [reason]
    ensures !holds ==> |added| == 0
  {
    if holds then [reason] else []
  }

  lemma SubComparesPositive(t: Time, u: Time, bound: Duration)
    ensures bound > 0 ==> (Sub(t, u) >= bound <==> t - u >= bound)
  {
    if bound > 0 {
      SubCompares(t, u, bound);
    }
  }

  // Nothing raised, in terms of the opportunity's own fields.
  lemma ApprovesIff(cfg: RiskConfig, canceled: bool, o: Opportunity, now: Time)
    ensures Approves(cfg, canceled, o, now) <==>
            && !canceled
            && o.quantity * o.longEntryPrice > 0.0
            && (cfg.maxTradeUSD > 0.0 ==> o.quantity * o.longEntryPrice <= cfg.maxTradeUSD)
            && o.expectedNetProfitUSD >= cfg.minProfitUSD
            && o.expectedNetProfitPct >= cfg.minProfitPct
            && o.longExchange != o.shortExchange
            && o.quantity > 0.0
            && o.targetFundingTime != 0
            && (cfg.minTimeToFunding > 0 ==> o.targetFundingTime - now >= cfg.minTimeToFunding)
            && o.netFundingRatePct > 0.0
  {
    SubComparesPositive(o.targetFundingTime, now, cfg.minTimeToFunding);
    hide Sub;
    if Approves(cfg, canceled, o, now) {
      assert !Raised(cfg, o, now, NotionalNotPositive) && !Raised(cfg, o, now, NotionalAboveLimit);
      assert !Raised(cfg, o, now, ProfitTooSmall) && !Raised(cfg, o, now, ProfitPctTooSmall);
      assert !Raised(cfg, o, now, SameExchange) && !Raised(cfg, o, now, QuantityNotPositive);
      assert !Raised(cfg, o, now, NoTarget) && !Raised(cfg, o, now, WindowTooClose);
      assert !Raised(cfg, o, now, NetRateNotPositive);
    }
  }

  // The reasons to refuse an opportunity, in the order they are found.
  function ReasonsAgainst(cfg: RiskConfig, o: Opportunity, now: Time): seq<string> {
    var notional := o.quantity * o.longEntryPrice;
    Only(notional <= 0.0, "notional must be positive") +
    Only(cfg.maxTradeUSD > 0.0 && notional > cfg.maxTradeUSD, "notional exceeds max trade limit") +
    Only(o.expectedNetProfitUSD < cfg.minProfitUSD, "net profit below minimum absolute threshold") +
    Only(o.expectedNetProfitPct < cfg.minProfitPct, "net profit below minimum percentage threshold") +
    Only(o.longExchange == o.shortExchange, "long and short exchange must differ") +
    Only(o.quantity <= 0.0, "quantity must be positive") +
    Only(IsZero(o.targetFundingTime), "target funding time is required") +
    Only(cfg.minTimeToFunding > 0 && Sub(o.targetFundingTime, now) < cfg.minTimeToFunding,
         "funding window too close") +
    Only(o.netFundingRatePct <= 0.0, "net funding rate must be positive")
  }

  // Which reason stands for what, and their order.
  lemma ReasonsInWords(cfg: RiskConfig, o: Opportunity, now: Time)
    ensures var notional := o.quantity * o.longEntryPrice;
            ReasonsAgainst(cfg, o, now) ==
            (if notional <= 0.0
             then ["notional must be positive"] else []) +
            (if cfg.maxTradeUSD > 0.0 && notional > cfg.maxTradeUSD
             then ["notional exceeds max trade limit"] else []) +
            (if o.expectedNetProfitUSD < cfg.minProfitUSD
             then ["net profit below minimum absolute threshold"] else []) +
            (if o.expectedNetProfitPct < cfg.minProfitPct
             then ["net profit below minimum percentage threshold"] else []) +
            (if o.longExchange == o.shortExchange
             then ["long and short exchange must differ"] else []) +
            (if o.quantity <= 0.0
             then ["quantity must be positive"] else []) +
            (if o.targetFundingTime == 0
             then ["target funding time is required"] else []) +
            (if cfg.minTimeToFunding > 0 && o.targetFundingTime - now < cfg.minTimeToFunding
             then ["funding window too close"] else []) +
            (if o.netFundingRatePct <= 0.0
             then ["net funding rate must be positive"] else [])
  {
    SubComparesPositive(o.targetFundingTime, now, cfg.minTimeToFunding);
    hide Sub, Only;
  }

  // None are found exactly when nothing is raised.
  lemma NoReasonsIff(cfg: RiskConfig, o: Opportunity, now: Time)
    ensures |ReasonsAgainst(cfg, o, now)| == 0 <==> Approves(cfg, false, o, now)
  {
    ApprovesIff(cfg, false, o, now);
    SubComparesPositive(o.targetFundingTime, now, cfg.minTimeToFunding);
    hide Sub, Only, Approves;
  }

  method Check(cfg: RiskConfig, canceled: bool, o: Opportunity, now: Time) returns (d: Decision)
    ensures d.approved <==> Approves(cfg, canceled, o, now)
    ensures d.approved <==> d.reasons == []
    ensures d.reasons == if canceled then ["context canceled"] else ReasonsAgainst(cfg, o, now)
    ensures d.checkedAt == now
  {
    if canceled {
      return Decision(false, ["context canceled"], now);
    }
    NoReasonsIff(cfg, o, now);
    assert Approves(cfg, canceled, o, now) == Approves(cfg, false, o, now);
    hide Sub, Only, Approves;
    var notional := o.quantity * o.longEntryPrice;
    var reasons := Only(notional <= 0.0, "notional must be positive");
    reasons := reasons + Only(cfg.maxTradeUSD > 0.0 && notional > cfg.maxTradeUSD, "notional exceeds max trade limit");
    reasons := reasons + Only(o.expectedNetProfitUSD < cfg.minProfitUSD, "net profit below minimum absolute threshold");
    reasons := reasons + Only(o.expectedNetProfitPct < cfg.minProfitPct,
                               "net profit below minimum percentage threshold");
    reasons := reasons + Only(o.longExchange == o.shortExchange, "long and short exchange must differ");
    reasons := reasons + Only(o.quantity <= 0.0, "quantity must be positive");
    reasons := reasons + Only(IsZero(o.targetFundingTime), "target funding time is required");
    reasons := reasons + Only(cfg.minTimeToFunding > 0 && Sub(o.targetFundingTime, now) < cfg.minTimeToFunding,
                               "funding window too close");
    reasons := reasons + Only(o.netFundingRatePct <= 0.0, "net funding rate must be positive");
    d := Decision(|reasons| == 0, reasons, now);
  }
}
