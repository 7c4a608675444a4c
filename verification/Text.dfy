/** The string operations the codecs use, on ASCII text. */
module Text {
  function ReplaceAll(s: string, from: char, into: string): string {
    if s == [] then [] else (if s[0] == from then into else [s[0]]) + ReplaceAll(s[1..], from, into)
  }

  function UpperChar(c: char): char { if 'a' <= c <= 'z' then c - 'a' + 'A' else c }
  function LowerChar(c: char): char { if 'A' <= c <= 'Z' then c - 'A' + 'a' else c }

  function ToUpper(s: string): (t: string)
    ensures |t| == |s| && forall i :: 0 <= i < |s| ==> t[i] == UpperChar(s[i])
  {
    seq(|s|, i requires 0 <= i < |s| => UpperChar(s[i]))
  }

  function ToLower(s: string): (t: string)
    ensures |t| == |s| && forall i :: 0 <= i < |s| ==> t[i] == LowerChar(s[i])
  {
    seq(|s|, i requires 0 <= i < |s| => LowerChar(s[i]))
  }

  predicate HasPrefix(s: string, prefix: string) { prefix <= s }

  predicate HasSuffix(s: string, suffix: string) {
    |suffix| <= |s| && s[|s| - |suffix|..] == suffix
  }

  function TrimPrefix(s: string, prefix: string): string {
    if HasPrefix(s, prefix) then s[|prefix|..] else s
  }

  function TrimSuffix(s: string, suffix: string): string {
    if HasSuffix(s, suffix) then s[..|s| - |suffix|] else s
  }

  predicate OccursAt(s: string, sub: string, i: int) {
    0 <= i <= |s| - |sub| && s[i..i + |sub|] == sub
  }

  predicate Contains(s: string, sub: string) {
    exists i :: 0 <= i <= |s| - |sub| && OccursAt(s, sub, i)
  }

  // The pieces of s between occurrences of sep; always at least one.
  function Split(s: string, sep: char): (parts: seq<string>)
    ensures |parts| >= 1
  {
    if s == [] then [[]]
    else
      var rest := Split(s[1..], sep);
      if s[0] == sep then [[]] + rest else [[s[0]] + rest[0]] + rest[1..]
  }

  /* ---------- Laws ---------- */

  lemma {:induction false} ReplaceAllConcat(a: string, b: string, from: char, into: string)
    ensures ReplaceAll(a + b, from, into) == ReplaceAll(a, from, into) + ReplaceAll(b, from, into)
  {
    if a == [] {
      assert a + b == b;
    } else {
      ReplaceAllConcat(a[1..], b, from, into);
      assert (a + b)[1..] == a[1..] + b;
      var head := if a[0] == from then into else [a[0]];
      calc {
        ReplaceAll(a + b, from, into);
        head + ReplaceAll(a[1..] + b, from, into);
        head + (ReplaceAll(a[1..], from, into) + ReplaceAll(b, from, into));
        (head + ReplaceAll(a[1..], from, into)) + ReplaceAll(b, from, into);
      }
    }
  }

  lemma {:induction false} ReplaceAllAbsent(s: string, from: char, into: string)
    requires from !in s
    ensures ReplaceAll(s, from, into) == s
  {
    if s == [] {
    } else {
      ReplaceAllAbsent(s[1..], from, into);
    }
  }

  lemma {:induction false} ReplaceAllRemoves(s: string, from: char, into: string)
    requires from !in into
    ensures from !in ReplaceAll(s, from, into)
  {
    if s == [] {
    } else {
      ReplaceAllRemoves(s[1..], from, into);
    }
  }

  // Replacing with nothing or with an absent character never adds any other character.
  lemma {:induction false} ReplaceAllKeepsAbsent(s: string, from: char, into: string, c: char)
    requires c !in s && c !in into
    ensures c !in ReplaceAll(s, from, into)
  {
    if s == [] {
    } else {
      ReplaceAllKeepsAbsent(s[1..], from, into, c);
    }
  }

  lemma {:induction false} DeletionShortens(s: string, from: char)
    ensures |ReplaceAll(s, from, "")| <= |s|
    ensures from in s ==> |ReplaceAll(s, from, "")| < |s|
  {
    if s == [] {
    } else {
      DeletionShortens(s[1..], from);
    }
  }

  lemma ReplaceAllFirst(c: char, s: string, from: char, into: string)
    ensures ReplaceAll([c] + s, from, into) == (if c == from then into else [c]) + ReplaceAll(s, from, into)
  {
    assert ([c] + s)[1..] == s;
  }

  lemma {:induction false} ReplaceThereAndBack(s: string, a: char, b: char)
    requires b !in s
    ensures ReplaceAll(ReplaceAll(s, a, [b]), b, [a]) == s
  {
    if s == [] {
    } else {
      hide ReplaceAll;
      ReplaceThereAndBack(s[1..], a, b);
      assert s == [s[0]] + s[1..];
      ReplaceAllFirst(s[0], s[1..], a, [b]);
      ReplaceAllFirst(if s[0] == a then b else s[0], ReplaceAll(s[1..], a, [b]), b, [a]);
    }
  }

  lemma {:induction false} SplitFirst(a: string, b: string, sep: char)
    requires sep !in a
    ensures Split(a + [sep] + b, sep) == [a] + Split(b, sep)
  {
    if a == [] {
      assert a + [sep] + b == [sep] + b;
      assert ([sep] + b)[1..] == b;
    } else {
      SplitFirst(a[1..], b, sep);
      assert (a + [sep] + b)[1..] == a[1..] + [sep] + b;
      assert [a[0]] + a[1..] == a;
    }
  }

  lemma {:induction false} SplitPartsHaveNoSeparator(s: string, sep: char)
    ensures forall i :: 0 <= i < |Split(s, sep)| ==> sep !in Split(s, sep)[i]
  {
    if s == [] {
    } else {
      SplitPartsHaveNoSeparator(s[1..], sep);
    }
  }

  // The first separator of equal strings is in the same place.
  lemma CutAtFirst(a: string, x: string, b: string, y: string, sep: char)
    requires sep !in a && sep !in b
    requires a + [sep] + x == b + [sep] + y
    ensures a == b && x == y
  {
    SplitFirst(a, x, sep);
    SplitFirst(b, y, sep);
    assert a == b by {
      assert ([a] + Split(x, sep))[0] == ([b] + Split(y, sep))[0];
    }
    assert (a + [sep] + x)[|a| + 1..] == x && (b + [sep] + y)[|b| + 1..] == y;
  }

  /* ---------- Decimal integers ---------- */

  function Digit(d: int): char
    requires 0 <= d < 10
  {
    '0' + d as char
  }

  function PrintNat(n: nat): string {
    if n < 10 then [Digit(n)] else PrintNat(n / 10) + [Digit(n % 10)]
  }

  // Go's %d
  function PrintInt(n: int): string {
    if n < 0 then "-" + PrintNat(-n) else PrintNat(n)
  }

  function ReadNat(s: string): int {
    if s == [] then 0 else 10 * ReadNat(s[..|s| - 1]) + (s[|s| - 1] as int - '0' as int)
  }

  lemma {:induction false} ReadBackNat(n: nat)
    ensures ReadNat(PrintNat(n)) == n
    ensures '-' !in PrintNat(n)
  {
    if n < 10 {
      assert PrintNat(n)[..0] == [];
    } else {
      ReadBackNat(n / 10);
      assert PrintNat(n)[..|PrintNat(n)| - 1] == PrintNat(n / 10);
    }
  }

  lemma PrintedSign(n: int)
    ensures '-' in PrintInt(n) <==> n < 0
  {
    ReadBackNat(if n < 0 then -n else n);
  }

  lemma PrintIntInjective(m: int, n: int)
    ensures PrintInt(m) == PrintInt(n) <==> m == n
  {
    PrintedSign(m);
    PrintedSign(n);
    if PrintInt(m) == PrintInt(n) {
      ReadBackNat(if m < 0 then -m else m);
      ReadBackNat(if n < 0 then -n else n);
      if m < 0 {
        assert PrintInt(m)[1..] == PrintNat(-m) && PrintInt(n)[1..] == PrintNat(-n);
      }
    }
  }
}
