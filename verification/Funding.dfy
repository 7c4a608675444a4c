/** Synthetic funding: each book update yields the exchange's mark price, funding rate and
    next funding time for that symbol. */
module Funding {
  import opened Clock
  import opened Market

  datatype FundingSnapshot = FundingSnapshot(
    exchange: Name, symbol: string, markPrice: real, indexPrice: real,
    fundingRatePct: real, predictedFundingPct: real, nextFundingTime: Time, observedAt: Time)

  // hash is the 32-bit string hash behind a symbol's jitter; the model holds for any function.
  datatype FundingConfig = FundingConfig(defaultRatePct: real, fundingInterval: Duration, hash: string -> nat)

  // The store's defaults: eight hours, one basis point.
  function WithDefaults(cfg: FundingConfig): (c: FundingConfig)
    ensures c.fundingInterval > 0 && c.defaultRatePct != 0.0 && c.hash == cfg.hash
    ensures cfg.fundingInterval > 0 ==> c.fundingInterval == cfg.fundingInterval
    ensures cfg.defaultRatePct != 0.0 ==> c.defaultRatePct == cfg.defaultRatePct
    ensures cfg.fundingInterval <= 0 ==> c.fundingInterval == 28_800 * SECOND
    ensures cfg.defaultRatePct == 0.0 ==> c.defaultRatePct == 0.01
  {
    var c := if cfg.fundingInterval <= 0 then cfg.(fundingInterval := 8 * HOUR) else cfg;
    if c.defaultRatePct == 0.0 then c.(defaultRatePct := 0.01) else c
  }

  // wall is the clock reading used when the book carries no time.
  function NextFundingWindow(updatedAt: Time, interval: Duration, wall: Time): Time {
    var now := if IsZero(updatedAt) then wall else updatedAt;
    var windowStart := Truncate(now, interval);
    if windowStart == now then now + interval else windowStart + interval
  }

  function Midpoint(book: OrderBook): real {
    if book.bids == [] || book.asks == [] then 0.0
    else (book.bids[0].price + book.asks[0].price) / 2.0
  }

  function FirstPrice(book: OrderBook): real {
    if book.asks != [] then book.asks[0].price
    else if book.bids != [] then book.bids[0].price
    else 0.0
  }

  function MarkPrice(book: OrderBook): real {
    if Midpoint(book) == 0.0 then FirstPrice(book) else Midpoint(book)
  }

  // Each exchange's multiple of the default rate.
  function RateScale(name: Name): real {
    if name == BYBIT then 1.2
    else if name == OKX then -0.6
    else if name == HTX then 0.8
    else if name == KUCOIN then -0.4
    else 1.0
  }

  function Jitter(cfg: FundingConfig, symbol: string): real {
    (cfg.hash(symbol) % 9 - 4) as real * cfg.defaultRatePct * 0.05
  }

  function SyntheticRate(cfg: FundingConfig, name: Name, symbol: string): real {
    cfg.defaultRatePct * RateScale(name) + Jitter(cfg, symbol)
  }

  function SyntheticSnapshot(book: OrderBook, cfg: FundingConfig, wall: Time): FundingSnapshot {
    var mark := MarkPrice(book);
    var rate := SyntheticRate(cfg, book.exchange, book.symbol);
    FundingSnapshot(book.exchange, book.symbol, mark, mark, rate, rate,
                    NextFundingWindow(book.updatedAt, cfg.fundingInterval, wall), book.updatedAt)
  }

  // funding.Store
  class FundingStore {
    const cfg: FundingConfig
    var snapshots: Keyed<FundingSnapshot>

    constructor (config: FundingConfig)
      ensures cfg == WithDefaults(config) && snapshots == map[]
    {
      cfg := WithDefaults(config);
      snapshots := map[];
    }

    method Apply(snapshot: FundingSnapshot)
      modifies this
      ensures snapshots == WithEntry(old(snapshots), snapshot.symbol, snapshot.exchange, snapshot)
      ensures snapshot.symbol in snapshots && snapshot.exchange in snapshots[snapshot.symbol]
      ensures snapshots[snapshot.symbol][snapshot.exchange] == snapshot
      ensures forall symbol, name :: symbol != snapshot.symbol || name != snapshot.exchange ==>
                && ((symbol in snapshots && name in snapshots[symbol]) <==>
                    (symbol in old(snapshots) && name in old(snapshots)[symbol]))
                && (symbol in snapshots && name in snapshots[symbol] ==>
                      snapshots[symbol][name] == old(snapshots)[symbol][name])
    {
      if snapshot.symbol !in snapshots {
        snapshots := snapshots[snapshot.symbol := map[]];
      }
      snapshots := snapshots[snapshot.symbol := snapshots[snapshot.symbol][snapshot.exchange := snapshot]];
    }

    method ApplySyntheticFromOrderBook(book: OrderBook, wall: Time) returns (snapshot: FundingSnapshot)
      modifies this
      ensures snapshot == SyntheticSnapshot(book, cfg, wall)
      ensures snapshots == WithEntry(old(snapshots), book.symbol, book.exchange, snapshot)
      ensures forall symbol, name :: symbol != book.symbol || name != book.exchange ==>
                && ((symbol in snapshots && name in snapshots[symbol]) <==>
                    (symbol in old(snapshots) && name in old(snapshots)[symbol]))
                && (symbol in snapshots && name in snapshots[symbol] ==>
                      snapshots[symbol][name] == old(snapshots)[symbol][name])
    {
      snapshot := SyntheticSnapshot(book, cfg, wall);
      Apply(snapshot);
    }

    method Snapshot(symbol: string) returns (out: map<Name, FundingSnapshot>)
      ensures out == EntriesOf(snapshots, symbol)
      ensures out == if symbol in snapshots then snapshots[symbol] else map[]
    {
      out := CopyOf(EntriesOf(snapshots, symbol));
    }
  }

  /* ---------- Window arithmetic ---------- */

  ghost predicate IsMultiple(t: Time, interval: Duration)
    requires interval > 0
  {
    t % interval == 0
  }

  lemma MulOrder(a: int, b: int, d: int)
    requires d > 0
    ensures a <= b <==> a * d <= b * d
  {
    assert b * d - a * d == (b - a) * d;
  }

  lemma ProductIsMultiple(k: int, d: int)
    requires d > 0
    ensures k * d % d == 0
  {
    var q := k * d / d;
    MulOrder(k, q, d);
    MulOrder(q, k, d);
    MulOrder(q + 1, k, d);
    assert (q + 1) * d == q * d + d;
  }

  lemma MultipleAfter(now: int, m: int, d: int)
    requires d > 0 && m % d == 0 && now < m
    ensures (now / d + 1) * d <= m
  {
    MulOrder(m / d, now / d, d);
    MulOrder(now / d + 1, m / d, d);
  }

  // A missing book time is replaced by the wall reading.
  lemma MissingTimeIsReplaced(interval: Duration, wall: Time)
    requires !IsZero(wall)
    ensures NextFundingWindow(0, interval, wall) == NextFundingWindow(wall, interval, wall)
  {
  }

  // The next window is the least multiple of the interval strictly after now.
  lemma NextWindowIsLeastMultipleAfter(now: Time, interval: Duration, wall: Time)
    requires !IsZero(now) && interval > 0
    ensures var next := NextFundingWindow(now, interval, wall);
            && IsMultiple(next, interval)
            && now < next <= now + interval
            && forall m :: IsMultiple(m, interval) && now < m ==> next <= m
  {
    var next := NextFundingWindow(now, interval, wall);
    assert next == (now / interval + 1) * interval;
    ProductIsMultiple(now / interval + 1, interval);
    forall m | IsMultiple(m, interval) && now < m
      ensures next <= m
    {
      MultipleAfter(now, m, interval);
    }
  }

  // Later times never have an earlier window, and two times share one exactly when no multiple separates them.
  lemma NextWindowIsMonotone(t1: Time, t2: Time, interval: Duration, wall: Time)
    requires !IsZero(t1) && !IsZero(t2) && interval > 0 && t1 <= t2
    ensures var w1, w2 := NextFundingWindow(t1, interval, wall), NextFundingWindow(t2, interval, wall);
            && w1 <= w2
            && (w1 == w2 <==> t2 < w1)
  {
    NextWindowIsLeastMultipleAfter(t1, interval, wall);
    NextWindowIsLeastMultipleAfter(t2, interval, wall);
  }

  /* ---------- Rates and marks ---------- */

  // What a book yields, in the book's own prices and each exchange's multiple of the default rate.
  lemma SnapshotOfBook(book: OrderBook, cfg: FundingConfig, wall: Time)
    requires FeedBook(book)
    ensures var f, bids, asks := SyntheticSnapshot(book, cfg, wall), book.bids, book.asks;
            && f.exchange == book.exchange && f.symbol == book.symbol && f.observedAt == book.updatedAt
            && f.indexPrice == f.markPrice && f.fundingRatePct == f.predictedFundingPct
            && (asks != [] && bids != [] ==> 2.0 * f.markPrice == bids[0].price + asks[0].price)
            && (asks != [] && bids == [] ==> f.markPrice == asks[0].price)
            && (asks == [] && bids != [] ==> f.markPrice == bids[0].price)
            && (asks == [] && bids == [] ==> f.markPrice == 0.0)
    ensures var d, jitter := cfg.defaultRatePct, (cfg.hash(book.symbol) % 9) as real - 4.0;
            20.0 * SyntheticSnapshot(book, cfg, wall).predictedFundingPct ==
            d * jitter + match book.exchange
                         case "bybit" => 24.0 * d
                         case "okx" => -12.0 * d
                         case "htx" => 16.0 * d
                         case "kucoin" => -8.0 * d
                         case _ => 20.0 * d
  {
  }

  // The carry of a route does not depend on the books: the symbol's jitter cancels.
  lemma NetRateIsScaleDifference(cfg: FundingConfig, long: Name, short: Name, symbol: string)
    ensures SyntheticRate(cfg, short, symbol) - SyntheticRate(cfg, long, symbol) ==
            cfg.defaultRatePct * (RateScale(short) - RateScale(long))
  {
  }

  // A feed book with asks has a positive mark, no higher than its best ask unless the book is crossed.
  lemma MarkIsBelowAsk(book: OrderBook)
    requires FeedBook(book) && book.asks != []
    ensures MarkPrice(book) > 0.0
    ensures MarkPrice(book) <= book.asks[0].price <==> Uncrossed(book)
  {
  }
}
