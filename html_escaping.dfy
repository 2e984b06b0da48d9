/** The formatter parses its templates with html/template, which escapes
    every interpolated value for an HTML page. For the CSV report this turns
    the double quotes that %q puts around the code snippet into "&#34;", so
    the code column is no longer a quoted field. This module pins that down
    with html/template's escaping table for text between tags, and shows
    the output the same template gives when values are written verbatim, as
    text/template writes them. */
module HtmlEscaping {
  import opened Strings
  import opened Formatter

  /** html/template's replacement for one character of a value placed in
      HTML text. */
  function EscapeChar(c: char): string
  {
    if c == '\0' then "\U{FFFD}"
    else if c == '"' then "&#34;"
    else if c == '&' then "&amp;"
    else if c == '\'' then "&#39;"
    else if c == '+' then "&#43;"
    else if c == '<' then "&lt;"
    else if c == '>' then "&gt;"
    else [c]
  }

  function HtmlEscape(s: string): string
  {
    if s == [] then "" else EscapeChar(s[0]) + HtmlEscape(s[1..])
  }

  predicate Special(c: char)
  {
    c == '\0' || c == '"' || c == '&' || c == '\'' || c == '+' || c == '<' || c == '>'
  }

  lemma {:induction false} HtmlEscapeAppend(a: string, b: string)
    ensures HtmlEscape(a + b) == HtmlEscape(a) + HtmlEscape(b)
  {
    if a == [] {
      assert a + b == b;
    } else {
      assert (a + b)[1..] == a[1..] + b;
      HtmlEscapeAppend(a[1..], b);
    }
  }

  /** Text without any of the seven special characters is left as it is. */
  lemma {:induction false} HtmlEscapePlain(s: string)
    requires forall i :: 0 <= i < |s| ==> !Special(s[i])
    ensures HtmlEscape(s) == s
  {
    if s != [] {
      HtmlEscapePlain(s[1..]);
    }
  }

  /** A printed int holds none of the special characters: only digits and
      perhaps a leading minus sign. */
  lemma DecimalPlain(n: int)
    ensures forall i :: 0 <= i < |Decimal(n)| ==> !Special(Decimal(n)[i])
  {
  }

  /** html/template leaves a printed int as it is. */
  lemma NumeralIsDecimal(e: Engine, n: int)
    ensures Numeral(HtmlEngine(e), n) == Decimal(n)
  {
    DecimalPlain(n);
    HtmlEscapePlain(Decimal(n));
  }

  /** The engine with html/template's escaping, as the formatter is written. */
  function HtmlEngine(e: Engine): Engine
  {
    e.(escape := HtmlEscape)
  }

  /** The engine with values written verbatim, as text/template writes them. */
  function VerbatimEngine(e: Engine): Engine
  {
    e.(escape := (s: string) => s)
  }

  /** A quoted value, as %q always produces, comes out of html/template
      starting with "&#34;" instead of a double quote. */
  lemma {:induction false} QuoteIsEntity(q: string)
    requires |q| > 0 && q[0] == '"'
    ensures |HtmlEscape(q)| >= 5 && HtmlEscape(q)[..5] == "&#34;"
  {
    HtmlEscapeAppend(q[..1], q[1..]);
    assert q[..1] + q[1..] == q;
    assert HtmlEscape(q[..1]) == "&#34;";
  }

  /** As written: the sixth CSV column begins with "&#34;", not with the
      double quote %q put there. This is stated for every issue whose first
      five escaped fields are free of commas and line breaks and whose escaped
      %q field is free of line breaks, given what Go's %q guarantees and the
      uninterpreted quote is assumed to do: its output starts with a double
      quote (and, being Go string syntax, holds no raw line break). */
  lemma CsvCodeColumnAsWritten(e: Engine, x: Issue)
    requires CsvSafe(HtmlEngine(e), x)
    requires |e.quote(x.code)| > 0 && e.quote(x.code)[0] == '"'
    ensures |Lines(RenderCsv(HtmlEngine(e), [x]))| == 1
    ensures var fields := Split(Lines(RenderCsv(HtmlEngine(e), [x]))[0], ',', 5);
      |fields| == 6 && |fields[5]| >= 5 && fields[5][..5] == "&#34;"
  {
    CsvLayoutLines(HtmlEngine(e), [x]);
    QuoteIsEntity(e.quote(x.code));
  }

  /** Corrected: with values written verbatim the sixth CSV column is exactly
      the %q form of the code snippet, so it is a quoted field. */
  lemma CsvCodeColumnCorrected(e: Engine, x: Issue)
    requires CsvSafe(VerbatimEngine(e), x)
    ensures |Lines(RenderCsv(VerbatimEngine(e), [x]))| == 1
    ensures var fields := Split(Lines(RenderCsv(VerbatimEngine(e), [x]))[0], ',', 5);
      |fields| == 6 && fields[5] == e.quote(x.code)
  {
    CsvLayoutLines(VerbatimEngine(e), [x]);
  }

  /** With html/template's escaping, the summary's Issues line prints the
      NumFound counter as given, with no hypothesis on the escaper: two
      reports that differ only in NumFound render differently. */
  lemma NumFoundAsGivenHtml(e: Engine, issues: seq<Issue>, s: Metrics, found: int)
    requires found != s.numFound
    ensures RenderText(HtmlEngine(e), Report(issues, s))
      != RenderText(HtmlEngine(e), Report(issues, s.(numFound := found)))
  {
    NumeralIsDecimal(e, found);
    NumeralIsDecimal(e, s.numFound);
    NumFoundAsGiven(HtmlEngine(e), issues, s, found);
  }
}
