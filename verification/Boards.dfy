/** What the feed guarantees of every update, what the two stores then keep, and what that says
    of the pairs a step can choose from. */
module Boards {
  import opened Clock
  import opened Depth
  import opened Estimator
  import opened Feed
  import opened Funding
  import opened Identifier
  import opened Market
  import opened Scan
  import opened Wrappers

  /* ---------- The feed ---------- */

  // A parsed book, stamped before the wall readings of the step that processes it.
  ghost predicate GoodEvent(e: Event) {
    FeedBook(e.update) && e.update.updatedAt <= e.wall <= e.checkedAt <= e.startedAt <= e.finishedAt
  }

  // Wall readings never go backwards from one step to the next; book times may.
  ghost predicate GoodFeed(events: seq<Event>) {
    && (forall i :: 0 <= i < |events| ==> GoodEvent(events[i]))
    && forall i, j :: 0 <= i < j < |events| ==> events[i].finishedAt <= events[j].wall
  }

  // Every book of the feed is as ok says: AsksOrdered, BidsOrdered, Uncrossed or one of those below.
  ghost predicate Every(events: seq<Event>, ok: OrderBook -> bool) {
    forall i :: 0 <= i < |events| ==> ok(events[i].update)
  }

  // Only enabled exchanges have a connector, and only connectors send updates.
  function FromConnectors(cfg: Config): OrderBook -> bool {
    (book: OrderBook) => book.exchange in cfg.connectors
  }

  // An enabled exchange that files one of the configured symbols under this one.
  predicate Files(cfg: Config, name: Name, symbol: string) {
    KnownExchange(name) && name in cfg.connectors && exists s :: s in cfg.symbols && FiledAs(name, s) == symbol
  }

  // What the connectors send when every exchange keeps to the symbols it was subscribed with, once the
  // clock has passed since.
  function Delivered(cfg: Config, since: Time): OrderBook -> bool {
    (book: OrderBook) => Files(cfg, book.exchange, book.symbol) && since < book.updatedAt
  }

  // A parsed book of a configured symbol from an enabled exchange is such a book.
  lemma SubscribedIsDelivered(cfg: Config, since: Time, r: Option<OrderBook>, name: Name, symbol: string)
    requires name in cfg.connectors && symbol in cfg.symbols && BookOf(r, name, symbol) && since < r.value.updatedAt
    ensures Delivered(cfg, since)(r.value)
  {
  }

  // Each connector reads one message after the other.
  ghost predicate InOrder(events: seq<Event>) {
    forall i, j :: 0 <= i < j < |events| && events[i].update.exchange == events[j].update.exchange ==>
                     events[i].update.updatedAt <= events[j].update.updatedAt
  }

  /* ---------- The stores ---------- */

  // One book and the funding derived from it.
  ghost predicate Entry(cfg: Config, symbol: string, name: Name, book: OrderBook, f: FundingSnapshot, wall: Time) {
    && FeedBook(book)
    && book.symbol == symbol && book.exchange == name
    && book.updatedAt <= wall
    && f == SyntheticSnapshot(book, WithDefaults(cfg.funding), book.updatedAt)
  }

  ghost predicate BothStore(cfg: Config, s: State, symbol: string, name: Name, wall: Time) {
    && symbol in s.books && name in s.books[symbol]
    && symbol in s.funding && name in s.funding[symbol]
    && Entry(cfg, symbol, name, s.books[symbol][name], s.funding[symbol][name], wall)
  }

  // The two stores hold the same symbols and exchanges, and funding is what the stored books yield.
  ghost predicate StoresAgree(cfg: Config, s: State, wall: Time) {
    && s.books.Keys == s.funding.Keys
    && (forall symbol, name :: symbol in s.books && name in s.books[symbol] ==>
                                 BothStore(cfg, s, symbol, name, wall))
    && (forall symbol, name :: symbol in s.funding && name in s.funding[symbol] ==>
                                 BothStore(cfg, s, symbol, name, wall))
  }

  ghost predicate AllBooks(s: State, ok: OrderBook -> bool) {
    forall symbol, name :: symbol in s.books && name in s.books[symbol] ==> ok(s.books[symbol][name])
  }

  lemma SyntheticIgnoresWall(book: OrderBook, cfg: FundingConfig, wall: Time)
    requires FeedBook(book)
    ensures SyntheticSnapshot(book, cfg, wall) == SyntheticSnapshot(book, cfg, book.updatedAt)
  {
  }

  lemma AppliedKeepsStores(cfg: Config, s: State, e: Event, wall: Time)
    requires StoresAgree(cfg, s, wall) && GoodEvent(e) && wall <= e.wall
    ensures StoresAgree(cfg, Applied(cfg, s, e), e.wall)
  {
    hide SyntheticSnapshot, FeedBook;
    var t, u := Applied(cfg, s, e), e.update;
    SyntheticIgnoresWall(u, WithDefaults(cfg.funding), e.wall);
    forall symbol, name |
      || (symbol in t.books && name in t.books[symbol])
      || (symbol in t.funding && name in t.funding[symbol])
      ensures BothStore(cfg, t, symbol, name, e.wall)
    {
      if symbol != u.symbol || name != u.exchange {
        assert BothStore(cfg, s, symbol, name, wall);
      }
    }
  }

  lemma AppliedKeepsBooks(cfg: Config, s: State, e: Event, ok: OrderBook -> bool)
    requires AllBooks(s, ok) && ok(e.update)
    ensures AllBooks(Applied(cfg, s, e), ok)
  {
  }

  /* ---------- What a step sees ---------- */

  ghost predicate GoodBoard(cfg: Config, b: Board) {
    && !IsZero(b.now) && b.now <= b.wall
    && b.books.Keys == b.funding.Keys
    && forall name :: name in b.books ==> Entry(cfg, b.symbol, name, b.books[name], b.funding[name], b.wall)
  }

  lemma BoardIsGood(cfg: Config, s: State, e: Event)
    requires StoresAgree(cfg, s, e.wall) && GoodEvent(e)
    ensures GoodBoard(cfg, BoardOf(s, e))
  {
    hide SyntheticSnapshot;
    var b := BoardOf(s, e);
    forall name | name in b.books || name in b.funding
      ensures name in b.books && name in b.funding && Entry(cfg, b.symbol, name, b.books[name], b.funding[name], b.wall)
    {
      assert BothStore(cfg, s, b.symbol, name, e.wall);
    }
  }

  // The carry of a route: what its net predicted rate is on any good board, at any time.
  function RouteRate(cfg: Config, long: Name, short: Name): real {
    WithDefaults(cfg.funding).defaultRatePct * (RateScale(short) - RateScale(long))
  }

  lemma RouteRateOnBoard(cfg: Config, b: Board, long: Name, short: Name)
    requires GoodBoard(cfg, b) && long in b.books && short in b.books
    ensures b.funding[short].predictedFundingPct - b.funding[long].predictedFundingPct == RouteRate(cfg, long, short)
  {
    NetRateIsScaleDifference(WithDefaults(cfg.funding), long, short, b.symbol);
  }

  lemma WindowOnBoard(cfg: Config, b: Board, name: Name)
    requires GoodBoard(cfg, b) && name in b.books
    ensures var next := b.funding[name].nextFundingTime;
            b.books[name].updatedAt < next <= b.books[name].updatedAt + WithDefaults(cfg.funding).fundingInterval
  {
    var book, interval := b.books[name], WithDefaults(cfg.funding).fundingInterval;
    NextWindowIsLeastMultipleAfter(book.updatedAt, interval, book.updatedAt);
  }

  lemma KnownOnBoard(cfg: Config, b: Board, name: Name)
    requires GoodBoard(cfg, b) && name in b.books
    ensures KnownExchange(name) && FeedBook(b.books[name])
  {
  }

  // What every offer on a good board is: about that route, sized, priced and aimed at its next funding time.
  lemma OfferFacts(cfg: Config, b: Board, long: Name, short: Name)
    requires GoodBoard(cfg, b) && Offer(cfg, b, long, short).Some?
    ensures var o := Offer(cfg, b, long, short).value;
            && o.symbol == b.symbol && o.longExchange == long && o.shortExchange == short
            && long != short && KnownExchange(long) && KnownExchange(short)
            && o.id == NewOpportunityID(b.symbol, long, short, b.now)
            && o.quantity > 0.0
            && o.netFundingRatePct == RouteRate(cfg, long, short)
            && o.targetFundingTime <= b.wall + WithDefaults(cfg.funding).fundingInterval
            && (|| o.targetFundingTime == b.funding[long].nextFundingTime
                || o.targetFundingTime == b.funding[short].nextFundingTime)
            && !IsZero(o.targetFundingTime)
  {
    hide EstimateOf, TargetQuantity, Vwap, SyntheticSnapshot, NewOpportunityID, FeedBook;
    var input := InputFor(cfg, b, long, short);
    AcceptedIsPriced(input, b.wall);
    RouteRateOnBoard(cfg, b, long, short);
    WindowOnBoard(cfg, b, long);
    WindowOnBoard(cfg, b, short);
    assert FeedBook(b.books[long]) && FeedBook(b.books[short]);
    KnownOnBoard(cfg, b, long);
    KnownOnBoard(cfg, b, short);
  }
}
