/** From decoded exchange messages to order books.  A cell of a string row is the result of
    parsing it as a number. */
module Feed {
  import opened Clock
  import opened Depth
  import opened Market
  import opened Symbols
  import opened Text
  import opened Wrappers

  const MAX_LEVELS := 20

  type StringRows = seq<seq<Option<real>>>
  type FloatRows = seq<seq<real>>

  datatype Sides = Sides(bids: StringRows, asks: StringRows)

  function StringLevel(row: seq<Option<real>>): Option<Level> {
    if |row| >= 2 && row[0].Some? && row[1].Some? && row[0].value > 0.0 && row[1].value > 0.0
    then Some(Level(row[0].value, row[1].value)) else None
  }

  function FloatLevel(row: seq<real>): Option<Level> {
    if |row| >= 2 && row[0] > 0.0 && row[1] > 0.0 then Some(Level(row[0], row[1])) else None
  }

  function StringRowLevels(raw: StringRows): seq<Option<Level>> {
    seq(|raw|, i requires 0 <= i < |raw| => StringLevel(raw[i]))
  }

  function FloatRowLevels(raw: FloatRows): seq<Option<Level>> {
    seq(|raw|, i requires 0 <= i < |raw| => FloatLevel(raw[i]))
  }

  // The levels that are there, in order.
  function Present(rows: seq<Option<Level>>): seq<Level> {
    if rows == [] then []
    else
      var last := rows[|rows| - 1];
      Present(rows[..|rows| - 1]) + if last.Some? then [last.value] else []
  }

  ghost predicate Increasing(idx: seq<nat>, bound: nat) {
    && (forall k :: 0 <= k < |idx| ==> idx[k] < bound)
    && forall j, k :: 0 <= j < k < |idx| ==> idx[j] < idx[k]
  }

  // Level k is row idx[k], price first; the rows left out are not two positive numbers.
  ghost predicate StringsKept(raw: StringRows, levels: seq<Level>, idx: seq<nat>) {
    && |idx| == |levels| && Increasing(idx, |raw|)
    && (forall k :: 0 <= k < |idx| ==>
          && |raw[idx[k]]| >= 2
          && raw[idx[k]][0] == Some(levels[k].price) && raw[idx[k]][1] == Some(levels[k].quantity)
          && levels[k].price > 0.0 && levels[k].quantity > 0.0)
    && forall i :: 0 <= i < |raw| && i !in idx ==>
         |raw[i]| < 2 || raw[i][0].None? || raw[i][1].None? || raw[i][0].value <= 0.0 || raw[i][1].value <= 0.0
  }

  ghost predicate FloatsKept(raw: FloatRows, levels: seq<Level>, idx: seq<nat>) {
    && |idx| == |levels| && Increasing(idx, |raw|)
    && (forall k :: 0 <= k < |idx| ==>
          && |raw[idx[k]]| >= 2
          && raw[idx[k]][0] == levels[k].price && raw[idx[k]][1] == levels[k].quantity
          && levels[k].price > 0.0 && levels[k].quantity > 0.0)
    && forall i :: 0 <= i < |raw| && i !in idx ==> |raw[i]| < 2 || raw[i][0] <= 0.0 || raw[i][1] <= 0.0
  }

  // idx are the rows that are there, in order.
  ghost predicate Kept(rows: seq<Option<Level>>, levels: seq<Level>, idx: seq<nat>) {
    && |idx| == |levels| && Increasing(idx, |rows|)
    && (forall k :: 0 <= k < |idx| ==> rows[idx[k]] == Some(levels[k]))
    && forall i :: 0 <= i < |rows| && rows[i].Some? ==> i in idx
  }

  lemma KeptGrows(rows: seq<Option<Level>>, levels: seq<Level>, idx: seq<nat>, level: Level)
    requires Kept(rows, levels, idx)
    ensures Kept(rows + [None], levels, idx)
    ensures Kept(rows + [Some(level)], levels + [level], idx + [|rows|])
  {
    var more, grown := rows + [Some(level)], idx + [|rows|];
    forall i | 0 <= i < |more| && more[i].Some?
      ensures i in grown
    {
      if i == |rows| {
        assert grown[|idx|] == i;
      } else {
        assert rows[i] == more[i] && i in idx;
      }
    }
  }

  lemma {:induction false} PresentIndices(rows: seq<Option<Level>>) returns (idx: seq<nat>)
    ensures Kept(rows, Present(rows), idx)
  {
    if rows == [] {
      idx := [];
    } else {
      var front, last := rows[..|rows| - 1], rows[|rows| - 1];
      idx := PresentIndices(front);
      hide Kept;
      assert rows == front + [last];
      if last.Some? {
        KeptGrows(front, Present(front), idx, last.value);
        idx := idx + [|front|];
      } else {
        KeptGrows(front, Present(front), idx, Level(0.0, 0.0));
        assert Present(rows) == Present(front) + [] == Present(front);
      }
    }
  }

  ghost predicate LevelsOfStrings(raw: StringRows, levels: seq<Level>) {
    exists idx :: StringsKept(raw, levels, idx)
  }

  ghost predicate LevelsOfFloats(raw: FloatRows, levels: seq<Level>) {
    exists idx :: FloatsKept(raw, levels, idx)
  }

  lemma StringRowsAreKept(raw: StringRows)
    ensures LevelsOfStrings(raw, Present(StringRowLevels(raw)))
  {
    var idx := PresentIndices(StringRowLevels(raw));
    assert StringsKept(raw, Present(StringRowLevels(raw)), idx) by {
      assert forall i :: 0 <= i < |raw| ==> StringRowLevels(raw)[i] == StringLevel(raw[i]);
    }
  }

  lemma FloatRowsAreKept(raw: FloatRows)
    ensures LevelsOfFloats(raw, Present(FloatRowLevels(raw)))
  {
    var idx := PresentIndices(FloatRowLevels(raw));
    assert FloatsKept(raw, Present(FloatRowLevels(raw)), idx) by {
      assert forall i :: 0 <= i < |raw| ==> FloatRowLevels(raw)[i] == FloatLevel(raw[i]);
    }
  }

  function TrimLevels(levels: seq<Level>, limit: nat): seq<Level> {
    if |levels| <= limit then levels else levels[..limit]
  }

  method ParseStringLevels(raw: StringRows) returns (levels: seq<Level>)
    ensures levels == Present(StringRowLevels(raw))
    ensures LevelsOfStrings(raw, levels)
  {
    levels := [];
    ghost var rows := StringRowLevels(raw);
    for i := 0 to |raw|
      invariant levels == Present(rows[..i])
    {
      assert rows[..i + 1][..i] == rows[..i];
      var row := raw[i];
      if |row| < 2 {
        continue;
      }
      var price, qty := row[0], row[1];
      if price.Some? && qty.Some? && price.value > 0.0 && qty.value > 0.0 {
        levels := levels + [Level(price.value, qty.value)];
      }
    }
    assert rows[..|raw|] == rows;
    StringRowsAreKept(raw);
  }

  method ParseFloatLevels(raw: FloatRows) returns (levels: seq<Level>)
    ensures levels == Present(FloatRowLevels(raw))
    ensures LevelsOfFloats(raw, levels)
  {
    levels := [];
    ghost var rows := FloatRowLevels(raw);
    for i := 0 to |raw|
      invariant levels == Present(rows[..i])
    {
      assert rows[..i + 1][..i] == rows[..i];
      var row := raw[i];
      if |row| >= 2 && row[0] > 0.0 && row[1] > 0.0 {
        levels := levels + [Level(row[0], row[1])];
      }
    }
    assert rows[..|raw|] == rows;
    FloatRowsAreKept(raw);
  }

  // The book a parser builds from its rows at wall reading now.
  function BookFrom(
      exchange: Name, symbol: string, bids: seq<Option<Level>>, asks: seq<Option<Level>>, now: Time): OrderBook
  {
    OrderBook(exchange, symbol, TrimLevels(Present(bids), MAX_LEVELS), TrimLevels(Present(asks), MAX_LEVELS), now)
  }

  /* ---------- What the parsed books satisfy ---------- */

  ghost predicate RowsUsable(rows: seq<Option<Level>>) {
    forall i :: 0 <= i < |rows| && rows[i].Some? ==> Usable(rows[i].value)
  }

  ghost predicate RowsSorted(side: Side, rows: seq<Option<Level>>) {
    forall i, j :: 0 <= i < j < |rows| && rows[i].Some? && rows[j].Some? ==>
                     NoWorse(side, rows[i].value.price, rows[j].value.price)
  }

  // Dropping rows keeps what was true of the rows: positive levels, best price first.
  lemma {:induction false} PresentKeeps(side: Side, rows: seq<Option<Level>>)
    requires RowsUsable(rows)
    ensures AllUsable(Present(rows))
    ensures forall l :: l in Present(rows) <==> Some(l) in rows
    ensures RowsSorted(side, rows) ==> Sorted(side, Present(rows))
  {
    if rows == [] {
    } else {
      var front, last := rows[..|rows| - 1], rows[|rows| - 1];
      PresentKeeps(side, front);
      assert rows == front + [last];
      if RowsSorted(side, rows) && last.Some? {
        forall i | 0 <= i < |Present(front)|
          ensures NoWorse(side, Present(front)[i].price, last.value.price)
        {
          assert Some(Present(front)[i]) in front;
        }
      }
    }
  }

  // Every parser's book is a feed book, of at most twenty levels a side, ordered when its rows were.
  lemma ParsedBooksAreFeedBooks(
      exchange: Name, symbol: string, bids: seq<Option<Level>>, asks: seq<Option<Level>>, now: Time)
    requires KnownExchange(exchange) && RowsUsable(bids) && RowsUsable(asks) && !IsZero(now)
    ensures var book := BookFrom(exchange, symbol, bids, asks, now);
            && FeedBook(book)
            && |book.bids| <= MAX_LEVELS && |book.asks| <= MAX_LEVELS
            && (RowsSorted(Asks, asks) ==> AsksOrdered(book))
            && (RowsSorted(Bids, bids) ==> BidsOrdered(book))
  {
    PresentKeeps(Bids, bids);
    PresentKeeps(Asks, asks);
  }

  lemma RowLevelsUsable(strings: StringRows, floats: FloatRows)
    ensures RowsUsable(StringRowLevels(strings)) && RowsUsable(FloatRowLevels(floats))
  {
  }

  ghost predicate FirstTwenty(levels: seq<Level>, side: seq<Level>) {
    side == if |levels| <= 20 then levels else levels[..20]
  }

  // A side of the book is the first twenty levels of its rows.
  ghost predicate SideOfStrings(raw: StringRows, side: seq<Level>) {
    exists levels :: LevelsOfStrings(raw, levels) && FirstTwenty(levels, side)
  }

  ghost predicate SideOfFloats(raw: FloatRows, side: seq<Level>) {
    exists levels :: LevelsOfFloats(raw, levels) && FirstTwenty(levels, side)
  }

  // The book holds these rows, each on its own side, as of now.
  ghost predicate HoldsStrings(book: OrderBook, rows: Sides, now: Time) {
    SideOfStrings(rows.bids, book.bids) && SideOfStrings(rows.asks, book.asks) && book.updatedAt == now
  }

  ghost predicate HoldsFloats(book: OrderBook, bids: FloatRows, asks: FloatRows, now: Time) {
    SideOfFloats(bids, book.bids) && SideOfFloats(asks, book.asks) && book.updatedAt == now
  }

  lemma StringBookHoldsItsRows(exchange: Name, symbol: string, rows: Sides, now: Time)
    ensures HoldsStrings(BookFrom(exchange, symbol, StringRowLevels(rows.bids), StringRowLevels(rows.asks), now),
                         rows, now)
  {
    hide LevelsOfStrings, Present;
    StringRowsAreKept(rows.bids);
    StringRowsAreKept(rows.asks);
  }

  lemma FloatBookHoldsItsRows(exchange: Name, symbol: string, bids: FloatRows, asks: FloatRows, now: Time)
    ensures HoldsFloats(BookFrom(exchange, symbol, FloatRowLevels(bids), FloatRowLevels(asks), now), bids, asks, now)
  {
    hide LevelsOfFloats, Present;
    FloatRowsAreKept(bids);
    FloatRowsAreKept(asks);
  }

  lemma StringBooksAreFeedBooks(exchange: Name, symbol: string, rows: Sides, now: Time)
    requires KnownExchange(exchange) && !IsZero(now)
    ensures FeedBook(BookFrom(exchange, symbol, StringRowLevels(rows.bids), StringRowLevels(rows.asks), now))
  {
    RowLevelsUsable(rows.bids, []);
    RowLevelsUsable(rows.asks, []);
    ParsedBooksAreFeedBooks(exchange, symbol, StringRowLevels(rows.bids), StringRowLevels(rows.asks), now);
  }

  lemma FloatBooksAreFeedBooks(exchange: Name, symbol: string, bids: FloatRows, asks: FloatRows, now: Time)
    requires KnownExchange(exchange) && !IsZero(now)
    ensures FeedBook(BookFrom(exchange, symbol, FloatRowLevels(bids), FloatRowLevels(asks), now))
  {
    RowLevelsUsable([], bids);
    RowLevelsUsable([], asks);
    ParsedBooksAreFeedBooks(exchange, symbol, FloatRowLevels(bids), FloatRowLevels(asks), now);
  }

  /* ---------- The four parsers ---------- */

  function StringBook(exchange: Name, symbol: string, rows: Sides, now: Time): OrderBook {
    BookFrom(exchange, symbol, StringRowLevels(rows.bids), StringRowLevels(rows.asks), now)
  }

  // What each parser makes of a message that arrives at wall reading now.
  function ParsedBybit(topic: string, symbol: string, rows: Sides, now: Time): Option<OrderBook> {
    match DecodeBybit(topic, symbol)
    case None => None
    case Some(s) => Some(StringBook(BYBIT, s, rows, now))
  }

  function ParsedOKX(channel: string, instrument: string, data: seq<Sides>, now: Time): Option<OrderBook> {
    match DecodeOKX(channel, instrument)
    case None => None
    case Some(s) => if data == [] then None else Some(StringBook(OKX, s, data[0], now))
  }

  function ParsedHTX(channel: string, bids: FloatRows, asks: FloatRows, now: Time): Option<OrderBook> {
    match DecodeHTX(channel)
    case None => None
    case Some(s) => Some(BookFrom(HTX, s, FloatRowLevels(bids), FloatRowLevels(asks), now))
  }

  function ParsedKuCoin(kind: string, topic: string, rows: Sides, now: Time): Option<OrderBook> {
    match DecodeKuCoin(kind, topic)
    case None => None
    case Some(s) => Some(StringBook(KUCOIN, s, rows, now))
  }

  method ParseBybit(topic: string, symbol: string, rows: Sides, now: Time) returns (r: Option<OrderBook>)
    ensures r == ParsedBybit(topic, symbol, rows, now)
    ensures r.Some? && !IsZero(now) ==> FeedBook(r.value)
    ensures r.Some? ==> r.value.exchange == "bybit" && HoldsStrings(r.value, rows, now)
  {
    hide FeedBook, HoldsStrings, LevelsOfStrings;
    StringBookHoldsItsRows(BYBIT, SlashSymbol(symbol), rows, now);
    if !HasPrefix(topic, BYBIT_PREFIX) {
      return None;
    }
    var bids := ParseStringLevels(rows.bids);
    var asks := ParseStringLevels(rows.asks);
    r := Some(OrderBook(BYBIT, SlashSymbol(symbol), TrimLevels(bids, MAX_LEVELS), TrimLevels(asks, MAX_LEVELS), now));
    if !IsZero(now) {
      StringBooksAreFeedBooks(BYBIT, SlashSymbol(symbol), rows, now);
    }
  }

  method ParseOKX(channel: string, instrument: string, data: seq<Sides>, now: Time) returns (r: Option<OrderBook>)
    ensures r == ParsedOKX(channel, instrument, data, now)
    ensures r.Some? && !IsZero(now) ==> FeedBook(r.value)
    ensures r.Some? ==> data != [] && r.value.exchange == "okx" && HoldsStrings(r.value, data[0], now)
  {
    hide FeedBook, HoldsStrings, LevelsOfStrings, ReplaceAll;
    if channel != "books5" || |data| == 0 {
      return None;
    }
    var bids := ParseStringLevels(data[0].bids);
    var asks := ParseStringLevels(data[0].asks);
    var symbol := ReplaceAll(instrument, '-', "/");
    StringBookHoldsItsRows(OKX, symbol, data[0], now);
    r := Some(OrderBook(OKX, symbol, TrimLevels(bids, MAX_LEVELS), TrimLevels(asks, MAX_LEVELS), now));
    if !IsZero(now) {
      StringBooksAreFeedBooks(OKX, symbol, data[0], now);
    }
  }

  method ParseHTX(channel: string, bids: FloatRows, asks: FloatRows, now: Time) returns (r: Option<OrderBook>)
    ensures r == ParsedHTX(channel, bids, asks, now)
    ensures r.Some? && !IsZero(now) ==> FeedBook(r.value)
    ensures r.Some? ==> r.value.exchange == "htx" && HoldsFloats(r.value, bids, asks, now)
  {
    hide FeedBook, HoldsFloats, LevelsOfFloats;
    if !Contains(channel, ".depth.") {
      return None;
    }
    var parts := Split(channel, '.');
    if |parts| < 3 {
      return None;
    }
    var b := ParseFloatLevels(bids);
    var a := ParseFloatLevels(asks);
    var symbol := SlashSymbol(ToUpper(parts[1]));
    FloatBookHoldsItsRows(HTX, symbol, bids, asks, now);
    r := Some(OrderBook(HTX, symbol, TrimLevels(b, MAX_LEVELS), TrimLevels(a, MAX_LEVELS), now));
    if !IsZero(now) {
      FloatBooksAreFeedBooks(HTX, symbol, bids, asks, now);
    }
  }

  method ParseKuCoin(kind: string, topic: string, rows: Sides, now: Time) returns (r: Option<OrderBook>)
    ensures r == ParsedKuCoin(kind, topic, rows, now)
    ensures r.Some? && !IsZero(now) ==> FeedBook(r.value)
    ensures r.Some? ==> r.value.exchange == "kucoin" && HoldsStrings(r.value, rows, now)
  {
    hide FeedBook, HoldsStrings, LevelsOfStrings;
    if kind != "message" || !HasPrefix(topic, KUCOIN_PREFIX) {
      return None;
    }
    var symbol := ReplaceAll(TrimPrefix(topic, KUCOIN_PREFIX), '-', "/");
    StringBookHoldsItsRows(KUCOIN, symbol, rows, now);
    var bids := ParseStringLevels(rows.bids);
    var asks := ParseStringLevels(rows.asks);
    r := Some(OrderBook(KUCOIN, symbol, TrimLevels(bids, MAX_LEVELS), TrimLevels(asks, MAX_LEVELS), now));
    if !IsZero(now) {
      StringBooksAreFeedBooks(KUCOIN, symbol, rows, now);
    }
  }

  /* ---------- From subscription to book ---------- */

  // The key under which an exchange's books of a subscribed symbol are filed.
  function FiledAs(name: Name, symbol: string): string {
    if name == BYBIT then SlashSymbol(BybitSymbol(symbol))
    else if name == HTX then SlashSymbol(HTXPart(symbol))
    else ReplaceAll(DashSymbol(symbol), '-', "/")
  }

  // Where the feeds agree, each files under the symbol itself.
  lemma FiledAsItself(symbol: string)
    ensures FeedsAgree(symbol) <==> forall name :: KnownExchange(name) ==> FiledAs(name, symbol) == symbol
  {
    hide SlashSymbol, ReplaceAll, HTXPart, DecodeBybit, DecodeOKX, DecodeHTX, DecodeKuCoin;
    DecodedSymbols(symbol);
    assert KnownExchange(BYBIT) && KnownExchange(OKX) && KnownExchange(HTX) && KnownExchange(KUCOIN);
    if FeedsAgree(symbol) {
    } else {
      assert !(&& FiledAs(BYBIT, symbol) == symbol && FiledAs(OKX, symbol) == symbol
               && FiledAs(HTX, symbol) == symbol && FiledAs(KUCOIN, symbol) == symbol);
    }
  }

  // A parsed book of that exchange, filed under the key the symbol has there.
  ghost predicate BookOf(r: Option<OrderBook>, name: Name, symbol: string) {
    r.Some? && FeedBook(r.value) && r.value.exchange == name && r.value.symbol == FiledAs(name, symbol)
  }

  lemma BookFromFields(
      exchange: Name, symbol: string, bids: seq<Option<Level>>, asks: seq<Option<Level>>, now: Time)
    ensures BookFrom(exchange, symbol, bids, asks, now).symbol == symbol
    ensures BookFrom(exchange, symbol, bids, asks, now).exchange == exchange
  {
  }

  // Whatever rows an exchange sends with the spelling it was subscribed with, its parser delivers a book
  // of that exchange and key.
  lemma SubscriptionsDeliverBooks(
      symbol: string, rows: Sides, more: seq<Sides>, bids: FloatRows, asks: FloatRows, now: Time)
    requires !IsZero(now)
    ensures BookOf(ParsedBybit(BybitTopic(symbol), BybitSymbol(symbol), rows, now), BYBIT, symbol)
    ensures BookOf(ParsedOKX("books5", OKXInstrument(symbol), [rows] + more, now), OKX, symbol)
    ensures BookOf(ParsedHTX(HTXChannel(symbol), bids, asks, now), HTX, symbol)
    ensures BookOf(ParsedKuCoin("message", KuCoinTopic(symbol), rows, now), KUCOIN, symbol)
  {
    hide FeedBook, DecodeBybit, DecodeOKX, DecodeHTX, DecodeKuCoin, BookFrom, SlashSymbol, HTXPart, ReplaceAll;
    DecodedSymbols(symbol);
    var bybit, htx, other := FiledAs(BYBIT, symbol), FiledAs(HTX, symbol), FiledAs(OKX, symbol);
    BookFromFields(BYBIT, bybit, StringRowLevels(rows.bids), StringRowLevels(rows.asks), now);
    BookFromFields(OKX, other, StringRowLevels(rows.bids), StringRowLevels(rows.asks), now);
    BookFromFields(KUCOIN, other, StringRowLevels(rows.bids), StringRowLevels(rows.asks), now);
    BookFromFields(HTX, htx, FloatRowLevels(bids), FloatRowLevels(asks), now);
    StringBooksAreFeedBooks(BYBIT, bybit, rows, now);
    StringBooksAreFeedBooks(OKX, other, rows, now);
    StringBooksAreFeedBooks(KUCOIN, other, rows, now);
    FloatBooksAreFeedBooks(HTX, htx, bids, asks, now);
  }
}
