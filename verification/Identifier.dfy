/** Opportunity identifiers: the keys of the open-position map. */
module Identifier {
  import opened Clock
  import opened Text
  import opened Market
  import opened Symbols

  function NormalizedSymbol(symbol: string): string {
    ReplaceAll(ReplaceAll(symbol, '/', ""), '-', "")
  }

  function NewOpportunityID(symbol: string, long: Name, short: Name, detectedAt: Time): string {
    NormalizedSymbol(symbol) + "-" + long + "-" + short + "-" + PrintInt(UnixNano(detectedAt))
  }

  lemma NormalizedHasNoDash(symbol: string)
    ensures '-' !in NormalizedSymbol(symbol)
  {
    ReplaceAllRemoves(ReplaceAll(symbol, '/', ""), '-', "");
  }

  // Identifiers of dash-free exchange names clash only when all four printed components do.
  lemma IdentifiersClashIff(s1: string, l1: Name, h1: Name, t1: Time, s2: string, l2: Name, h2: Name, t2: Time)
    requires '-' !in l1 && '-' !in h1 && '-' !in l2 && '-' !in h2
    ensures NewOpportunityID(s1, l1, h1, t1) == NewOpportunityID(s2, l2, h2, t2) <==>
            NormalizedSymbol(s1) == NormalizedSymbol(s2) && l1 == l2 && h1 == h2 && UnixNano(t1) == UnixNano(t2)
  {
    hide ReplaceAll, NormalizedSymbol, PrintInt, UnixNano;
    var n1, n2 := NormalizedSymbol(s1), NormalizedSymbol(s2);
    var p1, p2 := PrintInt(UnixNano(t1)), PrintInt(UnixNano(t2));
    NormalizedHasNoDash(s1);
    NormalizedHasNoDash(s2);
    if NewOpportunityID(s1, l1, h1, t1) == NewOpportunityID(s2, l2, h2, t2) {
      assert NewOpportunityID(s1, l1, h1, t1) == n1 + ['-'] + (l1 + ['-'] + (h1 + ['-'] + p1));
      assert NewOpportunityID(s2, l2, h2, t2) == n2 + ['-'] + (l2 + ['-'] + (h2 + ['-'] + p2));
      CutAtFirst(n1, l1 + ['-'] + (h1 + ['-'] + p1), n2, l2 + ['-'] + (h2 + ['-'] + p2), '-');
      CutAtFirst(l1, h1 + ['-'] + p1, l2, h2 + ['-'] + p2, '-');
      CutAtFirst(h1, p1, h2, p2, '-');
      PrintIntInjective(UnixNano(t1), UnixNano(t2));
    }
  }

  lemma NormalizedCanonical(symbol: string)
    requires CanonicalSymbol(symbol)
    ensures NormalizedSymbol(symbol) == symbol[..|symbol| - 5] + "USDT"
  {
    hide ReplaceAll;
    var base := symbol[..|symbol| - 5];
    assert symbol == base + "/USDT";
    SlashDeleted(base);
    ReplaceAllAbsent(base + "USDT", '-', "");
  }

  // The identifier of a canonical pair, spelled out.
  lemma CanonicalIdentifier(base: string, long: Name, short: Name, t: Time)
    requires IsBase(base) && InUnixNanoRange(t)
    ensures NewOpportunityID(base + "/USDT", long, short, t) ==
            base + "USDT" + "-" + long + "-" + short + "-" + PrintInt(t - 62_135_596_800_000_000_000)
  {
    hide ReplaceAll, PrintInt;
    var symbol := base + "/USDT";
    assert symbol[|symbol| - 5..] == "/USDT" && symbol[..|symbol| - 5] == base;
    NormalizedCanonical(symbol);
  }

  // Deleting the separators tells canonical symbols apart.
  lemma CanonicalIsSeparated(s1: string, s2: string)
    requires CanonicalSymbol(s1) && CanonicalSymbol(s2) && NormalizedSymbol(s1) == NormalizedSymbol(s2)
    ensures s1 == s2
  {
    hide NormalizedSymbol, IsBase;
    NormalizedCanonical(s1);
    NormalizedCanonical(s2);
    var b1, b2 := s1[..|s1| - 5], s2[..|s2| - 5];
    assert (b1 + "USDT")[..|b1|] == b1 && (b2 + "USDT")[..|b2|] == b2;
    assert s1 == b1 + "/USDT" && s2 == b2 + "/USDT";
  }

  // On canonical symbols and timestamps an int64 can hold, an identifier determines its four components.
  lemma IdentifiersAreInjective(s1: string, l1: Name, h1: Name, t1: Time, s2: string, l2: Name, h2: Name, t2: Time)
    requires CanonicalSymbol(s1) && CanonicalSymbol(s2)
    requires '-' !in l1 && '-' !in h1 && '-' !in l2 && '-' !in h2
    requires NewOpportunityID(s1, l1, h1, t1) == NewOpportunityID(s2, l2, h2, t2)
    ensures s1 == s2 && l1 == l2 && h1 == h2
    ensures InUnixNanoRange(t1) && InUnixNanoRange(t2) ==> t1 == t2
  {
    hide NormalizedSymbol, PrintInt, CanonicalSymbol;
    IdentifiersClashIff(s1, l1, h1, t1, s2, l2, h2, t2);
    CanonicalIsSeparated(s1, s2);
  }
}
