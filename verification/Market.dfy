/** Order books as the connectors deliver them. */
module Market {
  import opened Clock
  import opened Depth

  type Name = string

  const BYBIT: Name := "bybit"
  const OKX: Name := "okx"
  const HTX: Name := "htx"
  const KUCOIN: Name := "kucoin"

  datatype OrderBook = OrderBook(exchange: Name, symbol: string, bids: seq<Level>, asks: seq<Level>, updatedAt: Time)

  predicate KnownExchange(name: Name) { name == BYBIT || name == OKX || name == HTX || name == KUCOIN }

  ghost predicate AllUsable(levels: seq<Level>) {
    forall i :: 0 <= i < |levels| ==> Usable(levels[i])
  }

  // What every book built by a parser satisfies.
  ghost predicate FeedBook(book: OrderBook) {
    && KnownExchange(book.exchange)
    && AllUsable(book.bids)
    && AllUsable(book.asks)
    && !IsZero(book.updatedAt)
  }

  // Best price first, as the exchanges send either side.
  ghost predicate AsksOrdered(book: OrderBook) { Sorted(Asks, book.asks) }

  ghost predicate BidsOrdered(book: OrderBook) { Sorted(Bids, book.bids) }

  predicate Uncrossed(book: OrderBook) {
    book.bids != [] && book.asks != [] ==> book.bids[0].price <= book.asks[0].price
  }

  // A book store or funding store: by symbol, then by exchange.
  type Keyed<V> = map<string, map<Name, V>>

  // The source's copy of one symbol's entries; a missing symbol gives an empty copy.
  function EntriesOf<V>(store: Keyed<V>, symbol: string): map<Name, V> {
    if symbol in store then store[symbol] else map[]
  }

  function WithEntry<V>(store: Keyed<V>, symbol: string, name: Name, value: V): Keyed<V> {
    store[symbol := EntriesOf(store, symbol)[name := value]]
  }

  // marketdata.Store.IsFresh
  predicate IsFresh(book: OrderBook, maxAge: Duration, now: Time) {
    !IsZero(book.updatedAt) && Sub(now, book.updatedAt) <= maxAge
  }

  // Saturation aside, a book is fresh when it has a time no further back than the age.
  lemma FreshIff(book: OrderBook, maxAge: Duration, now: Time)
    ensures maxAge < MAX_DURATION ==>
              (IsFresh(book, maxAge, now) <==> book.updatedAt != 0 && now - book.updatedAt <= maxAge)
    ensures maxAge == MAX_DURATION ==> (IsFresh(book, maxAge, now) <==> book.updatedAt != 0)
  {
  }

  // Copies a map entry by entry, in whatever order the entries come.
  method CopyOf<V>(entries: map<Name, V>) returns (out: map<Name, V>)
    ensures out == entries
  {
    out := map[];
    var todo := entries.Keys;
    while todo != {}
      invariant todo <= entries.Keys
      invariant out == map name | name in entries && name !in todo :: entries[name]
      decreases |todo|
    {
      var name :| name in todo;
      out := out[name := entries[name]];
      todo := todo - {name};
    }
  }

  // marketdata.Store
  class BookStore {
    var books: Keyed<OrderBook>

    constructor ()
      ensures books == map[]
    {
      books := map[];
    }

    method Apply(snapshot: OrderBook)
      modifies this
      ensures books == WithEntry(old(books), snapshot.symbol, snapshot.exchange, snapshot)
      ensures snapshot.symbol in books && snapshot.exchange in books[snapshot.symbol]
      ensures books[snapshot.symbol][snapshot.exchange] == snapshot
      ensures forall symbol, name :: symbol != snapshot.symbol || name != snapshot.exchange ==>
                && ((symbol in books && name in books[symbol]) <==>
                    (symbol in old(books) && name in old(books)[symbol]))
                && (symbol in books && name in books[symbol] ==> books[symbol][name] == old(books)[symbol][name])
    {
      if snapshot.symbol !in books {
        books := books[snapshot.symbol := map[]];
      }
      books := books[snapshot.symbol := books[snapshot.symbol][snapshot.exchange := snapshot]];
    }

    method Snapshot(symbol: string) returns (out: map<Name, OrderBook>)
      ensures out == EntriesOf(books, symbol)
      ensures out == if symbol in books then books[symbol] else map[]
    {
      out := CopyOf(EntriesOf(books, symbol));
    }
  }
}
