/** The four exchanges' spellings of a trading symbol: what is sent when subscribing and
    what the parser makes of the spelling the exchange echoes in its messages. */
module Symbols {
  import opened Text
  import opened Wrappers

  const BYBIT_PREFIX := "orderbook."
  const KUCOIN_PREFIX := "/spotMarket/level2Depth5:"

  function BybitSymbol(symbol: string): string { ReplaceAll(symbol, '/', "") }

  function DashSymbol(symbol: string): string { ReplaceAll(symbol, '/', "-") }

  function MarketHTXSymbol(symbol: string): string { "market." + ToLower(ReplaceAll(symbol, '/', "")) }

  function SlashSymbol(symbol: string): string {
    var s := ToUpper(ReplaceAll(symbol, '-', ""));
    if HasSuffix(s, "USDT") && |s| > 4 then TrimSuffix(s, "USDT") + "/USDT" else s
  }

  // What is subscribed to.
  function BybitTopic(symbol: string): string { "orderbook.1." + BybitSymbol(symbol) }

  function OKXInstrument(symbol: string): string { DashSymbol(symbol) }

  function HTXChannel(symbol: string): string { MarketHTXSymbol(symbol) + ".depth.step0" }

  function KuCoinTopic(symbol: string): string { KUCOIN_PREFIX + DashSymbol(symbol) }

  // What an incoming message is filed under; None when the message is not about a book.
  function DecodeBybit(topic: string, symbol: string): Option<string> {
    if HasPrefix(topic, BYBIT_PREFIX) then Some(SlashSymbol(symbol)) else None
  }

  function DecodeOKX(channel: string, instrument: string): Option<string> {
    if channel == "books5" then Some(ReplaceAll(instrument, '-', "/")) else None
  }

  function DecodeHTX(channel: string): Option<string> {
    if !Contains(channel, ".depth.") then None
    else
      var parts := Split(channel, '.');
      if |parts| < 3 then None else Some(SlashSymbol(ToUpper(parts[1])))
  }

  function DecodeKuCoin(kind: string, topic: string): Option<string> {
    if kind == "message" && HasPrefix(topic, KUCOIN_PREFIX)
    then Some(ReplaceAll(TrimPrefix(topic, KUCOIN_PREFIX), '-', "/"))
    else None
  }

  // All four feeds file the book of a subscribed symbol under that symbol.
  predicate FeedsAgree(symbol: string) {
    && DecodeBybit(BybitTopic(symbol), BybitSymbol(symbol)) == Some(symbol)
    && DecodeOKX("books5", OKXInstrument(symbol)) == Some(symbol)
    && DecodeHTX(HTXChannel(symbol)) == Some(symbol)
    && DecodeKuCoin("message", KuCoinTopic(symbol)) == Some(symbol)
  }

  predicate Ascii(s: string) {
    forall i :: 0 <= i < |s| ==> s[i] as int < 128
  }

  type AsciiString = s: string | Ascii(s)

  // ASCII, with no character that a feed drops, rewrites or splits at.
  predicate Plain(s: string) {
    Ascii(s) && '-' !in s && '.' !in s && forall i :: 0 <= i < |s| ==> !('a' <= s[i] <= 'z')
  }

  predicate IsBase(s: string) { s != "" && Plain(s) && '/' !in s }

  predicate CanonicalSymbol(symbol: string) {
    |symbol| > 5 && symbol[|symbol| - 5..] == "/USDT" && IsBase(symbol[..|symbol| - 5])
  }

  // A pair without a separator survives too, unless a feed would insert one.
  predicate UnseparatedSymbol(symbol: string) {
    Plain(symbol) && '/' !in symbol && !(HasSuffix(symbol, "USDT") && |symbol| > 4)
  }

  lemma {:induction false} SplitLength(a: string, b: string)
    ensures |Split(a + ['.'] + b, '.')| >= 2
  {
    if a == [] {
      assert (a + ['.'] + b)[1..] == b;
    } else {
      SplitLength(a[1..], b);
      assert (a + ['.'] + b)[1..] == a[1..] + ['.'] + b;
    }
  }

  // The part of the HTX channel that the parser takes for the symbol.
  function HTXPart(symbol: string): string {
    ToUpper(Split(ToLower(BybitSymbol(symbol)) + ".depth.step0", '.')[0])
  }

  lemma DecodedHTX(symbol: string)
    ensures DecodeHTX(HTXChannel(symbol)) == Some(SlashSymbol(HTXPart(symbol)))
  {
    hide ReplaceAll, SlashSymbol, ToUpper, ToLower;
    var x := ToLower(BybitSymbol(symbol));
    var channel := HTXChannel(symbol);
    assert channel == "market" + ['.'] + (x + ".depth.step0");
    SplitFirst("market", x + ".depth.step0", '.');
    assert OccursAt(channel, ".depth.", |"market."| + |x|);
    assert x + ".depth.step0" == x + ['.'] + "depth.step0";
    SplitLength(x, "depth.step0");
  }

  // What the four decoders make of the spelling sent to their exchange, for every symbol.
  lemma DecodedSymbols(symbol: string)
    ensures DecodeBybit(BybitTopic(symbol), BybitSymbol(symbol)) == Some(SlashSymbol(BybitSymbol(symbol)))
    ensures DecodeOKX("books5", OKXInstrument(symbol)) == Some(ReplaceAll(DashSymbol(symbol), '-', "/"))
    ensures DecodeHTX(HTXChannel(symbol)) == Some(SlashSymbol(HTXPart(symbol)))
    ensures DecodeKuCoin("message", KuCoinTopic(symbol)) == Some(ReplaceAll(DashSymbol(symbol), '-', "/"))
  {
    DecodedHTX(symbol);
    hide ReplaceAll, SlashSymbol, Split, ToUpper, ToLower, DecodeHTX, HTXChannel, HTXPart;
    assert BYBIT_PREFIX == BybitTopic(symbol)[..|BYBIT_PREFIX|];
    assert KuCoinTopic(symbol)[|KUCOIN_PREFIX|..] == DashSymbol(symbol);
  }

  lemma UpperLower(s: string)
    requires forall i :: 0 <= i < |s| ==> UpperChar(s[i]) == s[i]
    ensures ToUpper(s) == s && ToUpper(ToLower(s)) == s
  {
  }

  // HTX splits its channel at dots, so a plain pair is its own part.
  lemma HTXPartOfPlain(symbol: string)
    requires Plain(BybitSymbol(symbol))
    ensures HTXPart(symbol) == BybitSymbol(symbol)
  {
    hide ReplaceAll;
    var s := BybitSymbol(symbol);
    var x := ToLower(s);
    assert '.' !in x by {
      forall i | 0 <= i < |x|
        ensures x[i] != '.'
      {
        assert s[i] != '.';
      }
    }
    assert x + ".depth.step0" == x + ['.'] + "depth.step0";
    SplitFirst(x, "depth.step0", '.');
    UpperLower(s);
  }

  lemma SlashDeleted(base: string)
    requires '/' !in base
    ensures BybitSymbol(base + "/USDT") == base + "USDT"
  {
    ReplaceAllConcat(base, "/USDT", '/', "");
    ReplaceAllAbsent(base, '/', "");
    assert "/USDT"[1..] == "USDT";
    ReplaceAllAbsent("USDT", '/', "");
  }

  lemma JoinedIsPlain(base: string)
    requires Plain(base)
    ensures Plain(base + "USDT")
  {
  }

  lemma SlashInserted(base: string)
    requires base != "" && Plain(base)
    ensures Plain(base + "USDT")
    ensures SlashSymbol(base + "USDT") == base + "/USDT"
  {
    hide ReplaceAll, ToUpper, Ascii;
    var joined := base + "USDT";
    JoinedIsPlain(base);
    ReplaceAllAbsent(joined, '-', "");
    UpperLower(joined);
    assert joined[|joined| - 4..] == "USDT" && joined[..|joined| - 4] == base;
  }

  lemma SlashDashed(base: string)
    requires '/' !in base
    ensures DashSymbol(base + "/USDT") == base + "-USDT"
  {
    ReplaceAllConcat(base, "/USDT", '/', "-");
    ReplaceAllAbsent(base, '/', "-");
    assert "/USDT"[1..] == "USDT";
    ReplaceAllAbsent("USDT", '/', "-");
  }

  lemma MarketSpelling(symbol: string)
    ensures MarketHTXSymbol(symbol) == "market." + ToLower(BybitSymbol(symbol))
  {
  }

  lemma LoweredPair(base: string)
    ensures ToLower(base + "USDT") == ToLower(base) + "usdt"
  {
  }

  // What is subscribed to, spelled out.
  lemma CanonicalSpellings(base: string)
    requires IsBase(base)
    ensures var symbol := base + "/USDT";
            && BybitTopic(symbol) == "orderbook.1." + (base + "USDT") && BybitSymbol(symbol) == base + "USDT"
            && OKXInstrument(symbol) == base + "-USDT"
            && HTXChannel(symbol) == "market." + (ToLower(base) + "usdt") + ".depth.step0"
            && KuCoinTopic(symbol) == "/spotMarket/level2Depth5:" + (base + "-USDT")
  {
    hide ReplaceAll, Plain, ToLower, DashSymbol, BybitSymbol;
    SlashDeleted(base);
    SlashDashed(base);
    LoweredPair(base);
    MarketSpelling(base + "/USDT");
  }

  lemma {:induction false} TwoSeparators(a: string, b: string, c: string, sep: char)
    ensures |Split(a + [sep] + b + [sep] + c, sep)| >= 3
  {
    var s := a + [sep] + b + [sep] + c;
    if a != [] {
      TwoSeparators(a[1..], b, c, sep);
      assert s[1..] == a[1..] + [sep] + b + [sep] + c;
    } else if b != [] {
      TwoSeparators(a, b[1..], c, sep);
      var t := b + [sep] + c;
      assert s[1..] == t;
      assert t[1..] == b[1..] + [sep] + c;
      assert (a + [sep] + b[1..] + [sep] + c)[1..] == b[1..] + [sep] + c;
    } else {
      assert s[1..] == [sep] + c;
      assert ([sep] + c)[1..] == c;
    }
  }

  lemma DepthMarkerSplits(a: string, b: string)
    ensures Contains(a + ".depth." + b, ".depth.") && |Split(a + ".depth." + b, '.')| >= 3
  {
    hide Split;
    var channel := a + ".depth." + b;
    assert OccursAt(channel, ".depth.", |a|);
    TwoSeparators(a, "depth", b, '.');
    assert channel == a + ['.'] + "depth" + ['.'] + b;
  }

  lemma MarkerIsInside(channel: string)
    requires Contains(channel, ".depth.")
    ensures exists a: string, b: string :: channel == a + ".depth." + b
  {
    var i :| 0 <= i <= |channel| - |".depth."| && OccursAt(channel, ".depth.", i);
    assert channel == channel[..i] + ".depth." + channel[i + 7..];
  }

  // Which messages are about a book.
  lemma DecodedMessages(topic: string, symbol: string)
    ensures DecodeBybit(topic, symbol).Some? <==> "orderbook." <= topic
    ensures DecodeOKX(topic, symbol).Some? <==> topic == "books5"
    ensures DecodeHTX(topic).Some? <==> exists a: string, b: string :: topic == a + ".depth." + b
    ensures DecodeKuCoin(symbol, topic).Some? <==> symbol == "message" && "/spotMarket/level2Depth5:" <= topic
  {
    hide SlashSymbol, ReplaceAll, ToUpper, Split, Contains;
    if a: string, b: string :| topic == a + ".depth." + b {
      DepthMarkerSplits(a, b);
    }
    if Contains(topic, ".depth.") {
      MarkerIsInside(topic);
    }
  }

  // The symbol in an HTX channel is what stands between its first two dots.
  lemma DecodedChannel(market: string, part: string, rest: string)
    requires '.' !in market && '.' !in part && Contains(market + "." + part + "." + rest, ".depth.")
    ensures DecodeHTX(market + "." + part + "." + rest) == Some(SlashSymbol(ToUpper(part)))
  {
    hide SlashSymbol, ToUpper, Contains;
    var channel := market + "." + part + "." + rest;
    assert channel == market + ['.'] + (part + ['.'] + rest);
    SplitFirst(market, part + ['.'] + rest, '.');
    SplitFirst(part, rest, '.');
  }

  lemma CanonicalRoundTrips(symbol: string)
    requires CanonicalSymbol(symbol)
    ensures FeedsAgree(symbol)
  {
    hide ReplaceAll, SlashSymbol, Split, ToUpper, ToLower, DecodeBybit, DecodeHTX, DecodeOKX, DecodeKuCoin, HTXPart;
    var base := symbol[..|symbol| - 5];
    assert symbol == base + "/USDT";
    DecodedSymbols(symbol);
    SlashDeleted(base);
    SlashInserted(base);
    assert '-' !in symbol;
    ReplaceThereAndBack(symbol, '/', '-');
    HTXPartOfPlain(symbol);
  }

  lemma UnseparatedRoundTrips(symbol: string)
    requires UnseparatedSymbol(symbol)
    ensures FeedsAgree(symbol)
  {
    hide ReplaceAll, Split, ToUpper, ToLower, DecodeBybit, DecodeHTX, DecodeOKX, DecodeKuCoin, HTXPart;
    DecodedSymbols(symbol);
    ReplaceAllAbsent(symbol, '/', "");
    ReplaceAllAbsent(symbol, '-', "");
    ReplaceThereAndBack(symbol, '/', '-');
    UpperLower(symbol);
    HTXPartOfPlain(symbol);
  }

  // The cleaned spelling behind a decoded symbol: upper case, without slashes, without new dots.
  lemma CleanedShape(raw: string)
    requires '/' !in raw
    ensures var up := ToUpper(ReplaceAll(raw, '-', ""));
            && (forall i :: 0 <= i < |up| ==> UpperChar(up[i]) == up[i])
            && '/' !in up
            && ('.' !in raw ==> '.' !in up)
  {
    hide ReplaceAll;
    var cut := ReplaceAll(raw, '-', "");
    ReplaceAllKeepsAbsent(raw, '-', "", '/');
    if '.' !in raw {
      ReplaceAllKeepsAbsent(raw, '-', "", '.');
    }
    var up := ToUpper(cut);
    forall i | 0 <= i < |up|
      ensures up[i] != '/' && ('.' !in raw ==> up[i] != '.')
    {
      assert cut[i] in cut;
    }
  }

  // What appending the quote does to an upper-case base without slashes.
  lemma QuoteAppended(base: string)
    requires '/' !in base && forall i :: 0 <= i < |base| ==> UpperChar(base[i]) == base[i]
    ensures var s := base + "/USDT";
            && (forall i :: 0 <= i < |s| ==> UpperChar(s[i]) == s[i])
            && ('.' !in base ==> '.' !in s)
            && s[|s| - 5..] == "/USDT" && s[..|s| - 5] == base && '/' in s
  {
    var s := base + "/USDT";
    assert s[|base|] == '/';
    forall i | 0 <= i < |s|
      ensures UpperChar(s[i]) == s[i]
    {
      assert i >= |base| ==> s[i] == "/USDT"[i - |base|];
    }
  }

  // A decoded Bybit or HTX symbol is upper case and has at most the slash that was inserted.
  lemma SlashSymbolShape(raw: string)
    requires '/' !in raw
    ensures var s := SlashSymbol(raw);
            && (forall i :: 0 <= i < |s| ==> UpperChar(s[i]) == s[i])
            && ('.' !in raw ==> '.' !in s)
            && ('/' in s ==> |s| > 5 && s[|s| - 5..] == "/USDT" && '/' !in s[..|s| - 5])
            && ('/' !in s ==> !(HasSuffix(s, "USDT") && |s| > 4))
  {
    hide ReplaceAll, ToUpper;
    CleanedShape(raw);
    var up := ToUpper(ReplaceAll(raw, '-', ""));
    var s := SlashSymbol(raw);
    if HasSuffix(up, "USDT") && |up| > 4 {
      var base := up[..|up| - 4];
      hide HasSuffix, UpperChar;
      QuoteAppended(base);
    } else {
      assert s == up;
    }
  }

  lemma {:induction false} SplitKeepsAbsent(s: string, sep: char, c: char)
    requires c !in s
    ensures c !in Split(s, sep)[0]
  {
    if s == [] {
    } else {
      SplitKeepsAbsent(s[1..], sep, c);
    }
  }

  lemma HTXPartShape(symbol: string)
    ensures '/' !in HTXPart(symbol) && '.' !in HTXPart(symbol)
  {
    var raw := BybitSymbol(symbol);
    ReplaceAllRemoves(symbol, '/', "");
    hide ReplaceAll, BybitSymbol;
    var lowered := ToLower(raw);
    assert '/' !in lowered by {
      forall i | 0 <= i < |lowered|
        ensures lowered[i] != '/'
      {
        assert raw[i] in raw;
      }
    }
    SplitKeepsAbsent(lowered + ".depth.step0", '.', '/');
    SplitPartsHaveNoSeparator(lowered + ".depth.step0", '.');
    var part := Split(lowered + ".depth.step0", '.')[0];
    forall i | 0 <= i < |part|
      ensures UpperChar(part[i]) != '/' && UpperChar(part[i]) != '.'
    {
      assert part[i] in part;
    }
  }

  lemma AgreementShapesSymbol(symbol: string)
    requires FeedsAgree(symbol) && Ascii(symbol)
    ensures CanonicalSymbol(symbol) || UnseparatedSymbol(symbol)
  {
    hide ReplaceAll, SlashSymbol, Split, ToUpper, ToLower, DecodeBybit, DecodeHTX, DecodeOKX, DecodeKuCoin, HTXPart;
    DecodedSymbols(symbol);
    // OKX turns every dash into a slash.
    ReplaceAllRemoves(DashSymbol(symbol), '-', "/");
    // Bybit upper-cases and inserts at most one slash.
    ReplaceAllRemoves(symbol, '/', "");
    SlashSymbolShape(BybitSymbol(symbol));
    // HTX cuts the channel at its first dot.
    HTXPartShape(symbol);
    SlashSymbolShape(HTXPart(symbol));
    assert Plain(symbol);
    if '/' in symbol {
      var base := symbol[..|symbol| - 5];
      assert forall i :: 0 <= i < |base| ==> base[i] == symbol[i];
    }
  }

  // Of the ASCII symbols, exactly the canonical BASE/USDT ones, and the separator-free ones no feed
  // splits, reach one book key from all four feeds.
  lemma FeedsAgreeIff(symbol: string)
    requires Ascii(symbol)
    ensures FeedsAgree(symbol) <==> CanonicalSymbol(symbol) || UnseparatedSymbol(symbol)
  {
    if FeedsAgree(symbol) {
      AgreementShapesSymbol(symbol);
    } else if CanonicalSymbol(symbol) {
      CanonicalRoundTrips(symbol);
    } else if UnseparatedSymbol(symbol) {
      UnseparatedRoundTrips(symbol);
    }
  }
}
