/** When an opening overwrites an open position: the identifier does not print the symbol's separators, so
    two symbols that differ only there share their identifiers. */
module Clashes {
  import opened Boards
  import opened Clock
  import opened Exposure
  import opened Identifier
  import opened Lifecycle
  import opened Market
  import opened Positions
  import opened Profitability
  import opened Risk
  import opened Runs
  import opened Scan
  import opened Symbols
  import opened Text

  // Two symbols spelled alike that can be opened on the same exchanges.
  ghost predicate ClashOn(cfg: Config, s1: string, s2: string, long: Name, short: Name) {
    && s1 != s2 && NormalizedSymbol(s1) == NormalizedSymbol(s2)
    && Executable(cfg, s1, long, short) && Executable(cfg, s2, long, short)
  }

  ghost predicate CanClash(cfg: Config) {
    cfg.minTimeToFunding <= Interval(cfg) && exists s1, s2, long, short :: ClashOn(cfg, s1, s2, long, short)
  }

  // No two symbols of the feed are spelled alike.
  ghost predicate Separated(events: seq<Event>) {
    forall i, j :: 0 <= i < |events| && 0 <= j < |events|
                   && NormalizedSymbol(events[i].update.symbol) == NormalizedSymbol(events[j].update.symbol) ==>
                     events[i].update.symbol == events[j].update.symbol
  }

  // An open position was added as what it was entered with.
  lemma OpenWasAdded(l: Ledger, id: string) returns (p: Position)
    requires Conserved(l) && id in l.open
    ensures p in l.added && Entered(p) == Entered(l.open[id])
  {
    hide Entered;
    var entered := Entered(l.open[id]);
    assert entered in EnteredOpen(l.open);
    assert entered in multiset(EnteredLog(l.added));
    assert entered in EnteredLog(l.added);
    var i :| 0 <= i < |l.added| && EnteredLog(l.added)[i] == entered;
    p := l.added[i];
  }

  lemma LedgerIsConserved(cfg: Config, l: Ledger)
    requires GoodLedger(cfg, l)
    ensures Conserved(l)
  {
    hide Conserved;
  }

  lemma SpelledLikeTheEntered(p: Position, q: Position, r: Position)
    requires SpelledAlike(q, r) && Entered(p) == Entered(q)
    ensures SpelledAlike(p, r)
  {
    EnteredKeepsIdentity(p, q);
  }

  // Behind a loss there are two openings on the same exchanges, of different symbols spelled alike.
  lemma LostMeansClash(cfg: Config, run: seq<Tick>) returns (first: seq<Tick>, second: seq<Tick>)
    requires IsRun(cfg, run) && GoodFeed(EventsOf(run)) && After(cfg, run).ledger.lost != []
    ensures first != [] && first <= run && IsRun(cfg, first) && GoodFeed(EventsOf(first)) && Opens(cfg, first)
    ensures second != [] && second <= run && IsRun(cfg, second) && GoodFeed(EventsOf(second)) && Opens(cfg, second)
    ensures SpelledAlike(Opened(first), Opened(second))
  {
    hide IsRun, After, GoodFeed, GoodLedger, GoodBoard, Conserved, Entered, SpelledAlike, IsBest, StepBoard, Step;
    hide Approves, PositionFrom;
    second := LostBySomeStep(cfg, run);
    LastStep(cfg, second);
    var front := second[..|second| - 1];
    var l := After(cfg, front).ledger;
    LedgerIsConserved(cfg, l);
    var id := second[|second| - 1].choice.best.value.id;
    var p := OpenWasAdded(l, id);
    first := OpenedBySomeStep(cfg, front, p);
    SpelledLikeTheEntered(p, l.open[id], Opened(second));
  }

  lemma OpenedOfTheFeed(cfg: Config, prefix: seq<Tick>, run: seq<Tick>)
    requires prefix != [] && prefix <= run
    requires IsRun(cfg, prefix) && GoodFeed(EventsOf(prefix)) && Opens(cfg, prefix)
    ensures Opened(prefix).symbol == EventsOf(run)[|prefix| - 1].update.symbol
  {
    hide IsRun, After, GoodFeed, StepBoard, Opens, Opened, Offer, GoodBoard, Approves, RouteRate;
    var long, short := OpeningOffer(cfg, prefix);
  }

  // On a feed of separated symbols no opening ever overwrites a position.
  lemma SeparatedFeedsLoseNothing(cfg: Config, run: seq<Tick>)
    requires IsRun(cfg, run) && GoodFeed(EventsOf(run)) && Separated(EventsOf(run))
    ensures After(cfg, run).ledger.lost == []
  {
    hide IsRun, After, GoodFeed, Opens, Opened, NormalizedSymbol;
    if After(cfg, run).ledger.lost != [] {
      var first, second := LostMeansClash(cfg, run);
      OpenedOfTheFeed(cfg, first, run);
      OpenedOfTheFeed(cfg, second, run);
      assert false;
    }
  }

  lemma OpenedHere(cfg: Config, run: seq<Tick>)
    requires run != [] && IsRun(cfg, run) && GoodFeed(EventsOf(run)) && Opens(cfg, run)
    ensures Opened(run) in After(cfg, run).ledger.added
  {
    hide IsRun, GoodFeed, Step, Approves;
    AddedInStep(cfg, run);
  }

  lemma LostMeansCanClash(cfg: Config, run: seq<Tick>, since: Time)
    requires IsRun(cfg, run) && GoodFeed(EventsOf(run)) && Every(EventsOf(run), Delivered(cfg, since))
    requires After(cfg, run).ledger.lost != []
    ensures CanClash(cfg)
  {
    hide IsRun, After, GoodFeed, Approves, NormalizedSymbol, Executable, Every, PositionFrom;
    var first, second := LostMeansClash(cfg, run);
    var p, q := Opened(first), Opened(second);
    EveryPrefix(first, run, Delivered(cfg, since));
    EveryPrefix(second, run, Delivered(cfg, since));
    OpenedHere(cfg, first);
    OpenedHere(cfg, second);
    OpenedIsExecutable(cfg, first, since);
    OpenedIsExecutable(cfg, second, since);
    assert ClashOn(cfg, p.symbol, q.symbol, p.longLeg.exchange, p.shortLeg.exchange);
  }

  // Canonical symbols never clash.
  lemma CanonicalSymbolsNeverClash(cfg: Config)
    requires forall s :: s in cfg.symbols ==> CanonicalSymbol(s)
    ensures !CanClash(cfg)
  {
    hide Files, NormalizedSymbol, CanonicalSymbol, FeedsAgree;
    forall s | s in cfg.symbols
      ensures FeedsAgree(s)
    {
      CanonicalRoundTrips(s);
    }
    forall s1, s2, long, short
      ensures !ClashOn(cfg, s1, s2, long, short)
    {
      if ClashOn(cfg, s1, s2, long, short) {
        AgreedFiles(cfg, long, s1);
        AgreedFiles(cfg, long, s2);
        CanonicalIsSeparated(s1, s2);
        assert false;
      }
    }
  }

  lemma DashedFiles(cfg: Config, name: Name, symbol: string)
    requires name == OKX || name == KUCOIN
    requires name in cfg.connectors && symbol in cfg.symbols && '-' !in symbol
    ensures Files(cfg, name, symbol)
  {
    hide ReplaceAll;
    ReplaceThereAndBack(symbol, '/', '-');
  }

  lemma SlashGone(quote: string)
    requires '/' !in quote
    ensures ReplaceAll("/" + quote, '/', "") == quote
  {
    assert ("/" + quote)[1..] == quote;
    ReplaceAllAbsent(quote, '/', "");
  }

  lemma WithoutSlash(base: string, quote: string)
    requires '/' !in base && '/' !in quote
    ensures ReplaceAll(base + ("/" + quote), '/', "") == base + quote
  {
    hide ReplaceAll;
    ReplaceAllConcat(base, "/" + quote, '/', "");
    ReplaceAllAbsent(base, '/', "");
    SlashGone(quote);
  }

  lemma AlikeWithoutSlash()
    ensures NormalizedSymbol("A/BC") == NormalizedSymbol("AB/C")
  {
    hide ReplaceAll;
    WithoutSlash("A", "BC");
    WithoutSlash("AB", "C");
    assert "A" + ("/" + "BC") == "A/BC" && "AB" + ("/" + "C") == "AB/C" && "A" + "BC" == "AB" + "C";
  }

  // The separator is all that tells these two pairs apart, and OKX and KuCoin file both as they are.
  lemma TwoPairsClash(cfg: Config)
    requires "A/BC" in cfg.symbols && "AB/C" in cfg.symbols && OKX in cfg.connectors && KUCOIN in cfg.connectors
    requires cfg.minTimeToFunding <= Interval(cfg) && cfg.maxOrderBookAge >= 0
    ensures CanClash(cfg)
  {
    hide Files, NormalizedSymbol;
    DashedFiles(cfg, OKX, "A/BC");
    DashedFiles(cfg, KUCOIN, "A/BC");
    DashedFiles(cfg, OKX, "AB/C");
    DashedFiles(cfg, KUCOIN, "AB/C");
    AlikeWithoutSlash();
    assert ClashOn(cfg, "A/BC", "AB/C", OKX, KUCOIN);
  }
}
