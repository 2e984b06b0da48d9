/** Character-sequence helpers the report model is stated with: searching,
    cutting a text into newline-terminated lines and a line into
    comma-separated fields, and the decimal notation Go's fmt package uses
    when it prints an int. */
module Strings {

  /** Position of the first c in s, or |s| when s has none. */
  function IndexOf(s: string, c: char): (k: nat)
    ensures k <= |s|
    ensures k < |s| ==> s[k] == c
    ensures forall i :: 0 <= i < k ==> s[i] != c
  {
    if s == [] then 0
    else if s[0] == c then 0
    else 1 + IndexOf(s[1..], c)
  }

  /** In a + [c] + b, where a holds no c, the first c is the one after a. */
  lemma IndexOfSeparator(a: string, c: char, b: string)
    requires c !in a
    ensures IndexOf(a + [c] + b, c) == |a|
  {
    var s := a + [c] + b;
    assert s[|a|] == c;
    assert forall i :: 0 <= i < |a| ==> s[i] == a[i];
  }

  // ---------------------------------------------------------------------
  // Lines

  /** The text made of the lines ls, each one followed by a newline. */
  function Unlines(ls: seq<string>): string
  {
    if ls == [] then "" else ls[0] + "\n" + Unlines(ls[1..])
  }

  /** The lines of s: the pieces between newlines, a piece being ended by
      its newline; text after the last newline, if any, is a last line. */
  function Lines(s: string): seq<string>
    decreases |s|
  {
    if s == [] then []
    else
      var k := IndexOf(s, '\n');
      if k == |s| then [s] else [s[..k]] + Lines(s[k + 1..])
  }

  /** A line is a string without a newline. */
  predicate AllLines(ls: seq<string>)
  {
    forall i :: 0 <= i < |ls| ==> '\n' !in ls[i]
  }

  lemma AllLinesAppend(a: seq<string>, b: seq<string>)
    requires AllLines(a) && AllLines(b)
    ensures AllLines(a + b)
  {
    forall i | 0 <= i < |a + b|
      ensures '\n' !in (a + b)[i]
    {
      if i < |a| {
        assert (a + b)[i] == a[i];
      } else {
        assert (a + b)[i] == b[i - |a|];
      }
    }
  }

  lemma {:induction false} UnlinesAppend(a: seq<string>, b: seq<string>)
    ensures Unlines(a + b) == Unlines(a) + Unlines(b)
  {
    if a == [] {
      assert a + b == b;
    } else {
      assert (a + b)[1..] == a[1..] + b;
      UnlinesAppend(a[1..], b);
    }
  }

  /** Adding one line at the end of a text written line by line. */
  lemma UnlinesSnoc(ls: seq<string>, text: string, l: string)
    requires Unlines(ls) == text
    ensures Unlines(ls + [l]) == text + l + "\n"
  {
    UnlinesAppend(ls, [l]);
  }

  /** Adding a labelled value as one line at the end. */
  lemma UnlinesSnocField(ls: seq<string>, text: string, tag: string, v: string)
    requires Unlines(ls) == text
    ensures Unlines(ls + [tag + v]) == text + tag + v + "\n"
  {
    UnlinesAppend(ls, [tag + v]);
  }

  /** Adding an empty line at the end. */
  lemma UnlinesSnocEmpty(ls: seq<string>, text: string)
    requires Unlines(ls) == text
    ensures Unlines(ls + [""]) == text + "\n"
  {
    UnlinesAppend(ls, [""]);
  }

  lemma CancelPrefix(h: string, x: string, y: string)
    requires h + x == h + y
    ensures x == y
  {
    assert x == (h + x)[|h|..];
    assert y == (h + y)[|h|..];
  }

  /** The value between a common prefix and a trailing blank line is determined. */
  lemma CancelFrame(p: string, a: string, b: string)
    requires p + a + "\n" + "\n" == p + b + "\n" + "\n"
    ensures a == b
  {
    var u, v := p + a + "\n" + "\n", p + b + "\n" + "\n";
    assert |a| == |b|;
    assert a == u[|p|..|p| + |a|];
    assert b == v[|p|..|p| + |b|];
  }

  /** Splitting a text written line by line gives back exactly its lines. */
  lemma {:induction false} LinesOfUnlines(ls: seq<string>)
    requires AllLines(ls)
    ensures Lines(Unlines(ls)) == ls
  {
    if ls != [] {
      var rest := Unlines(ls[1..]);
      var s := Unlines(ls);
      assert s == ls[0] + ['\n'] + rest;
      IndexOfSeparator(ls[0], '\n', rest);
      assert s[..|ls[0]|] == ls[0];
      assert s[|ls[0]| + 1..] == rest;
      LinesOfUnlines(ls[1..]);
    }
  }

  // ---------------------------------------------------------------------
  // Fields

  /** The fields fs written one after another with sep between them. */
  function Join(fs: seq<string>, sep: char): string
    requires |fs| > 0
  {
    if |fs| == 1 then fs[0] else fs[0] + [sep] + Join(fs[1..], sep)
  }

  /** s cut at its first n occurrences of sep (at all of them when it has
      fewer); what follows the n-th separator stays whole, separators and all. */
  function Split(s: string, sep: char, n: nat): seq<string>
    decreases n
  {
    if n == 0 then [s]
    else
      var k := IndexOf(s, sep);
      if k == |s| then [s] else [s[..k]] + Split(s[k + 1..], sep, n - 1)
  }

  /** Cutting at the first separator of a + [sep] + rest, a holding none,
      takes off exactly a. */
  lemma SplitStep(a: string, sep: char, rest: string, n: nat)
    requires sep !in a && n > 0
    ensures Split(a + [sep] + rest, sep, n) == [a] + Split(rest, sep, n - 1)
  {
    var s := a + [sep] + rest;
    IndexOfSeparator(a, sep, rest);
    assert s[..|a|] == a;
    assert s[|a| + 1..] == rest;
  }

  /** Joining fields and cutting the result at as many separators as there
      are gaps gives the fields back, provided only the last field may hold
      the separator. */
  lemma {:induction false} SplitOfJoin(fs: seq<string>, sep: char)
    requires |fs| > 0
    requires forall i :: 0 <= i < |fs| - 1 ==> sep !in fs[i]
    ensures Split(Join(fs, sep), sep, |fs| - 1) == fs
  {
    if |fs| > 1 {
      SplitStep(fs[0], sep, Join(fs[1..], sep), |fs| - 1);
      SplitOfJoin(fs[1..], sep);
      assert [fs[0]] + fs[1..] == fs;
    }
  }

  /** A character that is in no field and is not the separator is not in
      the joined text either. */
  lemma {:induction false} JoinAvoids(fs: seq<string>, sep: char, c: char)
    requires |fs| > 0 && c != sep
    requires forall i :: 0 <= i < |fs| ==> c !in fs[i]
    ensures c !in Join(fs, sep)
  {
    if |fs| > 1 {
      JoinAvoids(fs[1..], sep, c);
    }
  }

  // ---------------------------------------------------------------------
  // Decimal numbers

  predicate IsDigit(c: char)
  {
    '0' <= c <= '9'
  }

  function DigitChar(d: nat): (c: char)
    requires d < 10
    ensures IsDigit(c)
  {
    ('0' as int + d) as char
  }

  /** The decimal digits of n, most significant first, without leading zeros. */
  function NatDigits(n: nat): (s: string)
    ensures |s| > 0
    ensures forall i :: 0 <= i < |s| ==> IsDigit(s[i])
    decreases n
  {
    if n < 10 then [DigitChar(n)] else NatDigits(n / 10) + [DigitChar(n % 10)]
  }

  /** An int as fmt prints it for %v and %d: a minus sign when negative,
      then its decimal digits. */
  function Decimal(n: int): (s: string)
    ensures |s| > 0 && '\n' !in s
  {
    if n < 0 then "-" + NatDigits(-n) else NatDigits(n)
  }

  /** The value of a string of decimal digits (a non-digit counts as 0). */
  function ParseNat(s: string): nat
    decreases |s|
  {
    if s == [] then 0
    else
      var c := s[|s| - 1];
      10 * ParseNat(s[..|s| - 1]) + (if IsDigit(c) then c as int - '0' as int else 0)
  }

  /** The value of an optionally signed decimal numeral. */
  function ParseDecimal(s: string): int
  {
    if |s| > 0 && s[0] == '-' then -(ParseNat(s[1..]) as int) else ParseNat(s)
  }

  lemma {:induction false} ParseNatDigits(n: nat)
    ensures ParseNat(NatDigits(n)) == n
  {
    if n >= 10 {
      var s := NatDigits(n);
      assert s[..|s| - 1] == NatDigits(n / 10);
      ParseNatDigits(n / 10);
    }
  }

  /** Reading back a printed int gives the int: printing loses nothing. */
  lemma DecimalRoundTrip(n: int)
    ensures ParseDecimal(Decimal(n)) == n
  {
    if n < 0 {
      assert Decimal(n)[1..] == NatDigits(-n);
      ParseNatDigits(-n);
    } else {
      assert IsDigit(NatDigits(n)[0]);
      ParseNatDigits(n);
    }
  }

  /** Two ints print alike only when they are equal. */
  lemma DecimalInjective(m: int, n: int)
    requires Decimal(m) == Decimal(n)
    ensures m == n
  {
    DecimalRoundTrip(m);
    DecimalRoundTrip(n);
  }
}
