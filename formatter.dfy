/** The report formatter of the gas analyzer (output/formatter.go): it turns
    the issues and counters of a finished analysis into JSON, CSV or plain
    text. Writing to the output stream is replaced by returning the text. */
module Formatter {
  import opened Strings

  // ---------------------------------------------------------------------
  // Data the formatter reads

  /** The rating used for both severity and confidence. */
  datatype Score = Low | Medium | High

  /** One reported issue, as the analyzer produced it. */
  datatype Issue = Issue(
    file: string,
    line: string,
    what: string,
    severity: Score,
    confidence: Score,
    code: string)

  /** The counters of an analysis run; numFound is given, never recounted. */
  datatype Metrics = Metrics(numFiles: int, numLines: int, numNosec: int, numFound: int)

  /** What CreateReport renders: the issues in the order found, and the counters. */
  datatype Report = Report(issues: seq<Issue>, stats: Metrics)

  datatype Option<T> = None | Some(value: T)

  datatype Result<T, E> = Ok(value: T) | Err(error: E)

  /** The failure the model returns: the template did not parse. Execution
      errors (a nil report, a failing writer) are outside the model, where the
      report is a value and the output a returned string. */
  datatype ReportError = TemplateSyntaxError(message: string)

  /** The output formats. */
  datatype ReportFormat = ReportText | ReportJSON | ReportCSV

  /** The formatter's two fixed templates: text and csv. */
  datatype Layout = TextLayout | CsvLayout

  /** Library behaviour the formatter relies on and does not define, kept
      uninterpreted:
      - escape: html/template's escaping of every value it interpolates;
      - quote: fmt's %q verb (Go double-quoted string syntax);
      - scoreText: the text a Score prints as;
      - syntaxError: the error template.Parse reports for a layout's template text, if any;
      - encodeJson: json.MarshalIndent of the report with tab indentation. */
  datatype Engine = Engine(
    escape: string -> string,
    quote: string -> string,
    scoreText: Score -> string,
    syntaxError: Layout -> Option<string>,
    encodeJson: Report -> string)

  // ---------------------------------------------------------------------
  // The two templates

  /** One row of the csv template. The trim markers remove the line breaks
      between fields; the break after the printf action ends the row. */
  function CsvRow(e: Engine, x: Issue): string
  {
    e.escape(x.file) + "," + e.escape(x.line) + "," + e.escape(x.what) + ","
    + e.escape(e.scoreText(x.severity)) + "," + e.escape(e.scoreText(x.confidence)) + ","
    + e.escape(e.quote(x.code)) + "\n"
  }

  /** The csv template executed over the issues: its range body once per issue. */
  function RenderCsv(e: Engine, issues: seq<Issue>): string
  {
    if issues == [] then "" else CsvRow(e, issues[0]) + RenderCsv(e, issues[1..])
  }

  /** The location line of an issue in the text template. */
  function Headline(e: Engine, x: Issue): string
  {
    "[" + e.escape(x.file) + ":" + e.escape(x.line) + "] - " + e.escape(x.what)
    + " (Confidence: " + e.escape(e.scoreText(x.confidence))
    + ", Severity: " + e.escape(e.scoreText(x.severity)) + ")"
  }

  /** The range body of the text template for one issue. */
  function TextIssue(e: Engine, x: Issue): string
  {
    "\n"
    + Headline(e, x) + "\n"
    + "  > " + e.escape(x.code) + "\n"
    + "\n"
  }

  function TextIssues(e: Engine, issues: seq<Issue>): string
  {
    if issues == [] then "" else TextIssue(e, issues[0]) + TextIssues(e, issues[1..])
  }

  /** A counter as the template prints it: decimal, then escaped. */
  function Numeral(e: Engine, n: int): string
  {
    e.escape(Decimal(n))
  }

  /** The part of the text template after the range. */
  function TextSummary(e: Engine, s: Metrics): string
  {
    "\n"
    + "Summary:" + "\n"
    + "   Files: " + Numeral(e, s.numFiles) + "\n"
    + "   Lines: " + Numeral(e, s.numLines) + "\n"
    + "   Nosec: " + Numeral(e, s.numNosec) + "\n"
    + "  Issues: " + Numeral(e, s.numFound) + "\n"
    + "\n"
  }

  /** The text template executed over a report. Whatever the issues, the
      output opens with the heading and closes with the summary block. */
  function RenderText(e: Engine, r: Report): (out: string)
    ensures |out| >= 9 + |TextSummary(e, r.stats)|
    ensures out[..9] == "Results:\n"
    ensures out[|out| - |TextSummary(e, r.stats)|..] == TextSummary(e, r.stats)
  {
    "Results:" + "\n" + TextIssues(e, r.issues) + TextSummary(e, r.stats)
  }

  /** A parsed template executed over a report. */
  function Execute(e: Engine, layout: Layout, data: Report): string
  {
    match layout
    case TextLayout => RenderText(e, data)
    case CsvLayout => RenderCsv(e, data.issues)
  }

  /** reportFromTemplate: parse the template, and execute it only when it
      parsed; a parse error is returned as it is. Execution is modelled as
      total (the report is a value, the output a returned string). */
  function ReportFromTemplate(e: Engine, layout: Layout, data: Report): (r: Result<string, ReportError>)
    ensures r.Err? <==> e.syntaxError(layout).Some?
    ensures r.Err? ==> r.error == TemplateSyntaxError(e.syntaxError(layout).value)
    ensures r.Ok? ==> r.value == Execute(e, layout, data)
  {
    match e.syntaxError(layout)
    case Some(msg) => Err(TemplateSyntaxError(msg))
    case None => Ok(Execute(e, layout, data))
  }

  // ---------------------------------------------------------------------
  // Dispatch

  /** The format a format name selects: "json" and "csv" name their own,
      every other name, the empty one included, selects plain text. */
  function FormatOf(format: string): (f: ReportFormat)
    ensures f == ReportJSON <==> format == "json"
    ensures f == ReportCSV <==> format == "csv"
    ensures f == ReportText <==> format != "json" && format != "csv"
  {
    if format == "json" then ReportJSON
    else if format == "csv" then ReportCSV
    else ReportText
  }

  /** CreateReport: render the report in the named format. JSON goes to the
      encoder, whose panics are not modelled; a template gives an error here
      only when it does not parse, its execution errors being outside the model. */
  function CreateReport(e: Engine, format: string, data: Report): (r: Result<string, ReportError>)
    ensures format == "json" ==> r == Ok(e.encodeJson(data))
    ensures format == "csv" ==> r == ReportFromTemplate(e, CsvLayout, data)
    ensures format != "json" && format != "csv" ==> r == ReportFromTemplate(e, TextLayout, data)
  {
    match FormatOf(format)
    case ReportJSON => Ok(e.encodeJson(data))
    case ReportCSV => ReportFromTemplate(e, CsvLayout, data)
    case ReportText => ReportFromTemplate(e, TextLayout, data)
  }

  // ---------------------------------------------------------------------
  // Properties of the dispatcher

  /** An unknown format name, the empty one included, gives byte for byte
      what "text" gives, and never an error of its own. */
  lemma UnknownFormatIsText(e: Engine, format: string, data: Report)
    requires format != "json" && format != "csv"
    ensures CreateReport(e, format, data) == CreateReport(e, "text", data)
  {
  }

  /** A template that does not parse is never executed: the result is the
      parse error whatever the report holds. */
  lemma ParseErrorStopsExecution(e: Engine, layout: Layout, d1: Report, d2: Report)
    requires e.syntaxError(layout).Some?
    ensures ReportFromTemplate(e, layout, d1) == ReportFromTemplate(e, layout, d2)
    ensures ReportFromTemplate(e, layout, d1) == Err(TemplateSyntaxError(e.syntaxError(layout).value))
  {
  }

  /** CSV output depends on the issues only: nothing of the counters shows. */
  lemma CsvIgnoresStats(e: Engine, d1: Report, d2: Report)
    requires d1.issues == d2.issues
    ensures CreateReport(e, "csv", d1) == CreateReport(e, "csv", d2)
  {
  }

  /** With no issues, CSV is empty and text is the heading and the summary. */
  lemma EmptyReport(e: Engine, s: Metrics)
    ensures e.syntaxError(CsvLayout).None? ==> CreateReport(e, "csv", Report([], s)) == Ok("")
    ensures e.syntaxError(TextLayout).None? ==>
      CreateReport(e, "text", Report([], s)) == Ok("Results:\n" + TextSummary(e, s))
  {
  }

  // ---------------------------------------------------------------------
  // CSV layout

  /** Rendering concatenated issue lists is concatenating their renderings. */
  lemma {:induction false} RenderCsvAppend(e: Engine, xs: seq<Issue>, ys: seq<Issue>)
    ensures RenderCsv(e, xs + ys) == RenderCsv(e, xs) + RenderCsv(e, ys)
  {
    if xs == [] {
      assert xs + ys == ys;
    } else {
      assert (xs + ys)[1..] == xs[1..] + ys;
      RenderCsvAppend(e, xs[1..], ys);
    }
  }

  /** The six CSV fields of an issue, in the order the csv template writes them. */
  function CsvFields(e: Engine, x: Issue): (fs: seq<string>)
    ensures |fs| == 6
  {
    [e.escape(x.file), e.escape(x.line), e.escape(x.what),
     e.escape(e.scoreText(x.severity)), e.escape(e.scoreText(x.confidence)),
     e.escape(e.quote(x.code))]
  }

  /** An issue whose rendered fields hold no line break, and whose first
      five hold no comma (the last may: nothing after it is cut). */
  predicate CsvSafe(e: Engine, x: Issue)
  {
    && (forall j :: 0 <= j < 6 ==> '\n' !in CsvFields(e, x)[j])
    && (forall j :: 0 <= j < 5 ==> ',' !in CsvFields(e, x)[j])
  }

  function CsvRecords(e: Engine, xs: seq<Issue>): (rs: seq<string>)
    ensures |rs| == |xs|
  {
    if xs == [] then [] else [Join(CsvFields(e, xs[0]), ',')] + CsvRecords(e, xs[1..])
  }

  lemma CsvRowIsRecord(e: Engine, x: Issue)
    ensures CsvRow(e, x) == Join(CsvFields(e, x), ',') + "\n"
  {
    var fs := CsvFields(e, x);
    assert Join(fs[5..], ',') == fs[5];
    assert Join(fs[4..], ',') == fs[4] + "," + fs[5];
    assert Join(fs[3..], ',') == fs[3] + "," + fs[4] + "," + fs[5];
    assert Join(fs[2..], ',') == fs[2] + "," + fs[3] + "," + fs[4] + "," + fs[5];
    assert Join(fs[1..], ',') == fs[1] + "," + fs[2] + "," + fs[3] + "," + fs[4] + "," + fs[5];
  }

  lemma {:induction false} RenderCsvIsUnlines(e: Engine, xs: seq<Issue>)
    ensures RenderCsv(e, xs) == Unlines(CsvRecords(e, xs))
  {
    if xs != [] {
      CsvRowIsRecord(e, xs[0]);
      RenderCsvIsUnlines(e, xs[1..]);
    }
  }

  lemma {:induction false} CsvRecordsAt(e: Engine, xs: seq<Issue>, i: nat)
    requires i < |xs|
    ensures CsvRecords(e, xs)[i] == Join(CsvFields(e, xs[i]), ',')
  {
    if i > 0 {
      CsvRecordsAt(e, xs[1..], i - 1);
    }
  }

  /** CSV output is one line per issue, in input order, and each line cut at
      its first five commas gives File, Line, What, Severity, Confidence and
      the quoted Code, escaped, in that order; there is no header and no
      summary. */
  lemma CsvLayoutLines(e: Engine, xs: seq<Issue>)
    requires forall i :: 0 <= i < |xs| ==> CsvSafe(e, xs[i])
    ensures |Lines(RenderCsv(e, xs))| == |xs|
    ensures forall i :: 0 <= i < |xs| ==>
      Split(Lines(RenderCsv(e, xs))[i], ',', 5) ==
        [e.escape(xs[i].file), e.escape(xs[i].line), e.escape(xs[i].what),
         e.escape(e.scoreText(xs[i].severity)), e.escape(e.scoreText(xs[i].confidence)),
         e.escape(e.quote(xs[i].code))]
  {
    var rs := CsvRecords(e, xs);
    forall i | 0 <= i < |xs|
      ensures rs[i] == Join(CsvFields(e, xs[i]), ',') && '\n' !in rs[i]
    {
      CsvRecordsAt(e, xs, i);
      JoinAvoids(CsvFields(e, xs[i]), ',', '\n');
    }
    RenderCsvIsUnlines(e, xs);
    LinesOfUnlines(rs);
    forall i | 0 <= i < |xs|
      ensures Split(rs[i], ',', 5) == CsvFields(e, xs[i])
    {
      SplitOfJoin(CsvFields(e, xs[i]), ',');
    }
  }

  // ---------------------------------------------------------------------
  // Text layout

  lemma {:induction false} TextIssuesAppend(e: Engine, xs: seq<Issue>, ys: seq<Issue>)
    ensures TextIssues(e, xs + ys) == TextIssues(e, xs) + TextIssues(e, ys)
  {
    if xs == [] {
      assert xs + ys == ys;
    } else {
      assert (xs + ys)[1..] == xs[1..] + ys;
      TextIssuesAppend(e, xs[1..], ys);
    }
  }

  /** Text output of concatenated issue lists: the heading, the blocks of the
      first list, the blocks of the second, then the one summary. */
  lemma RenderTextAppend(e: Engine, xs: seq<Issue>, ys: seq<Issue>, s: Metrics)
    ensures RenderText(e, Report(xs + ys, s))
      == "Results:" + "\n" + (TextIssues(e, xs) + TextIssues(e, ys)) + TextSummary(e, s)
  {
    TextIssuesAppend(e, xs, ys);
  }

  /** The four lines of one issue block. */
  function TextBlock(e: Engine, x: Issue): seq<string>
  {
    ["", Headline(e, x), "  > " + e.escape(x.code), ""]
  }

  function TextBlocks(e: Engine, xs: seq<Issue>): (ls: seq<string>)
    ensures |ls| == 4 * |xs|
  {
    if xs == [] then [] else TextBlock(e, xs[0]) + TextBlocks(e, xs[1..])
  }

  /** The seven lines of the summary block. */
  function SummaryLines(e: Engine, s: Metrics): seq<string>
  {
    ["", "Summary:",
     "   Files: " + Numeral(e, s.numFiles),
     "   Lines: " + Numeral(e, s.numLines),
     "   Nosec: " + Numeral(e, s.numNosec),
     "  Issues: " + Numeral(e, s.numFound),
     ""]
  }

  /** An issue whose rendered values hold no line break. */
  predicate TextSafe(e: Engine, x: Issue)
  {
    && '\n' !in e.escape(x.file) && '\n' !in e.escape(x.line) && '\n' !in e.escape(x.what)
    && '\n' !in e.escape(e.scoreText(x.confidence)) && '\n' !in e.escape(e.scoreText(x.severity))
    && '\n' !in e.escape(x.code)
  }

  /** Counters whose rendered values hold no line break. */
  predicate SummarySafe(e: Engine, s: Metrics)
  {
    && '\n' !in Numeral(e, s.numFiles) && '\n' !in Numeral(e, s.numLines)
    && '\n' !in Numeral(e, s.numNosec) && '\n' !in Numeral(e, s.numFound)
  }

  lemma TextIssueIsUnlines(e: Engine, x: Issue)
    ensures TextIssue(e, x) == Unlines(TextBlock(e, x))
  {
    var h, c := Headline(e, x), e.escape(x.code);
    var l0: seq<string> := [""];
    assert Unlines(l0) == "\n";
    UnlinesSnoc(l0, "\n", h);
    var l1 := l0 + [h];
    var t1 := "\n" + h + "\n";
    UnlinesSnocField(l1, t1, "  > ", c);
    var l2 := l1 + ["  > " + c];
    var t2 := t1 + "  > " + c + "\n";
    UnlinesSnocEmpty(l2, t2);
    assert l2 + [""] == TextBlock(e, x);
  }

  lemma SummaryIsUnlines(e: Engine, s: Metrics)
    ensures TextSummary(e, s) == Unlines(SummaryLines(e, s))
  {
    var n1, n2, n3, n4 := Numeral(e, s.numFiles), Numeral(e, s.numLines), Numeral(e, s.numNosec), Numeral(e, s.numFound);
    var l0: seq<string> := [""];
    assert Unlines(l0) == "\n";
    UnlinesSnoc(l0, "\n", "Summary:");
    var l1 := l0 + ["Summary:"];
    var t1 := "\n" + "Summary:" + "\n";
    UnlinesSnocField(l1, t1, "   Files: ", n1);
    var l2 := l1 + ["   Files: " + n1];
    var t2 := t1 + "   Files: " + n1 + "\n";
    UnlinesSnocField(l2, t2, "   Lines: ", n2);
    var l3 := l2 + ["   Lines: " + n2];
    var t3 := t2 + "   Lines: " + n2 + "\n";
    UnlinesSnocField(l3, t3, "   Nosec: ", n3);
    var l4 := l3 + ["   Nosec: " + n3];
    var t4 := t3 + "   Nosec: " + n3 + "\n";
    UnlinesSnocField(l4, t4, "  Issues: ", n4);
    var l5 := l4 + ["  Issues: " + n4];
    var t5 := t4 + "  Issues: " + n4 + "\n";
    UnlinesSnocEmpty(l5, t5);
    assert l5 + [""] == SummaryLines(e, s);
  }

  lemma {:induction false} TextIssuesIsUnlines(e: Engine, xs: seq<Issue>)
    ensures TextIssues(e, xs) == Unlines(TextBlocks(e, xs))
  {
    if xs != [] {
      TextIssueIsUnlines(e, xs[0]);
      TextIssuesIsUnlines(e, xs[1..]);
      UnlinesAppend(TextBlock(e, xs[0]), TextBlocks(e, xs[1..]));
    }
  }

  lemma HeadlineIsLine(e: Engine, x: Issue)
    requires TextSafe(e, x)
    ensures '\n' !in Headline(e, x)
  {
  }

  lemma TextBlockIsLines(e: Engine, x: Issue)
    requires TextSafe(e, x)
    ensures AllLines(TextBlock(e, x))
  {
    HeadlineIsLine(e, x);
    assert '\n' !in "  > " + e.escape(x.code);
  }

  lemma SummaryLinesAreLines(e: Engine, s: Metrics)
    requires SummarySafe(e, s)
    ensures AllLines(SummaryLines(e, s))
  {
  }

  lemma {:induction false} TextBlocksAreLines(e: Engine, xs: seq<Issue>)
    requires forall i :: 0 <= i < |xs| ==> TextSafe(e, xs[i])
    ensures AllLines(TextBlocks(e, xs))
  {
    if xs != [] {
      TextBlocksAreLines(e, xs[1..]);
      TextBlockIsLines(e, xs[0]);
      AllLinesAppend(TextBlock(e, xs[0]), TextBlocks(e, xs[1..]));
    }
  }

  lemma RenderTextIsUnlines(e: Engine, r: Report)
    ensures RenderText(e, r) == Unlines(["Results:"] + TextBlocks(e, r.issues) + SummaryLines(e, r.stats))
  {
    var blocks := TextBlocks(e, r.issues);
    assert Unlines(["Results:"]) == "Results:" + "\n";
    TextIssuesIsUnlines(e, r.issues);
    SummaryIsUnlines(e, r.stats);
    UnlinesAppend(["Results:"], blocks);
    UnlinesAppend(["Results:"] + blocks, SummaryLines(e, r.stats));
  }

  /** Text output, line by line: the heading "Results:", then for each issue
      in input order its four-line block (an empty line, the location line
      with Confidence before Severity, the code line prefixed "  > ", an
      empty line), then the summary block with the four counters as given. */
  lemma TextLayoutLines(e: Engine, r: Report)
    requires forall i :: 0 <= i < |r.issues| ==> TextSafe(e, r.issues[i])
    requires SummarySafe(e, r.stats)
    ensures Lines(RenderText(e, r)) == ["Results:"] + TextBlocks(e, r.issues) + SummaryLines(e, r.stats)
  {
    var ls := ["Results:"] + TextBlocks(e, r.issues) + SummaryLines(e, r.stats);
    RenderTextIsUnlines(e, r);
    TextBlocksAreLines(e, r.issues);
    SummaryLinesAreLines(e, r.stats);
    AllLinesAppend(["Results:"], TextBlocks(e, r.issues));
    AllLinesAppend(["Results:"] + TextBlocks(e, r.issues), SummaryLines(e, r.stats));
    LinesOfUnlines(ls);
  }

  /** The summary prints NumFound as given: with the issues and the other
      counters alike, two different NumFound values always give different
      text output (when escaping keeps numerals apart). */
  lemma NumFoundAsGiven(e: Engine, issues: seq<Issue>, s: Metrics, found: int)
    requires found != s.numFound
    requires e.escape(Decimal(found)) == e.escape(Decimal(s.numFound)) ==> Decimal(found) == Decimal(s.numFound)
    ensures RenderText(e, Report(issues, s)) != RenderText(e, Report(issues, s.(numFound := found)))
  {
    var s' := s.(numFound := found);
    var head := "Results:" + "\n" + TextIssues(e, issues);
    var p := "\n"
      + "Summary:" + "\n"
      + "   Files: " + Numeral(e, s.numFiles) + "\n"
      + "   Lines: " + Numeral(e, s.numLines) + "\n"
      + "   Nosec: " + Numeral(e, s.numNosec) + "\n"
      + "  Issues: ";
    var a, b := Numeral(e, s.numFound), Numeral(e, found);
    assert TextSummary(e, s) == p + a + "\n" + "\n";
    assert TextSummary(e, s') == p + b + "\n" + "\n";
    if RenderText(e, Report(issues, s)) == RenderText(e, Report(issues, s')) {
      CancelPrefix(head, TextSummary(e, s), TextSummary(e, s'));
      CancelFrame(p, a, b);
      DecimalInjective(found, s.numFound);
    }
  }
}
