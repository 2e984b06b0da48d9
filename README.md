# gas report formatter — Dafny model

This project models the report formatter of the gas Go security analyzer
(`output/formatter.go`). `CreateReport` takes a format name and the finished
analysis, which holds the list of issues and the run counters. It renders the
analysis as JSON, CSV or plain text:

- `"json"` goes to the JSON encoder;
- `"csv"` goes to the csv template;
- `"text"`, and every other name, goes to the text template.

A template that does not parse gives back the parse error, and the template
is then not executed.

The model has three modules:

- `Strings`: character-sequence helpers. They cover cutting text into
  newline-terminated lines and a line into comma-separated fields, and Go's
  decimal printing of an int. `Lines` undoes `Unlines` for newline-free
  lines. `Split` undoes `Join` when only the last field may hold the
  separator. `ParseDecimal` undoes `Decimal`. Only these directions are
  proved; the converse ones do not hold, since `Unlines(Lines("a"))` is
  `"a\n"` and `"07"` prints back as `"7"`.
- `Formatter`: the data the formatter reads, the `ReportFormat` enum, the
  dispatcher, the template-error short-circuit and the exact layouts the text
  and csv templates produce. Output written to the `io.Writer` is modelled as
  the returned string. Library behaviour the code relies on is passed in as an
  `Engine` value and stays uninterpreted. That behaviour is the escaping of
  interpolated values, `%q`, the text of a score, the parse result of each
  template and `json.MarshalIndent`.
- `HtmlEscaping`: html/template's escaping table for text between tags. It
  states what that table does to the CSV code column (see Findings), and that
  it leaves the printed counters unchanged.

Every value a template interpolates passes through `escape`. The csv row is
the six fields joined by commas with no spaces: file, line, what, severity,
confidence, then the `%q`-quoted code. A newline ends the row. There is no
header row. The text report is written in this order:

1. `Results:` and a newline.
2. One block per issue:
   - an empty line;
   - `[file:line] - what (Confidence: c, Severity: s)`;
   - `  > code`;
   - an empty line.
3. The summary:
   - an empty line;
   - `Summary:`;
   - four counter lines;
   - an empty line.

## Model

| member | source | states |
|---|---|---|
| Formatter.FormatOf | output/formatter.go:59-67 | the format is JSON exactly when the name is "json", CSV exactly when it is "csv", and text exactly when it is neither |
| Formatter.CreateReport | output/formatter.go:57-70 | "json" yields the encoder's output and never an error; "csv" yields the csv template's result; every other name yields the text template's result |
| Formatter.UnknownFormatIsText | output/formatter.go:64-67 | any name other than "json" and "csv" (the empty name included) gives exactly what "text" gives |
| Formatter.ReportFromTemplate | output/formatter.go:85-92 | the result is an error exactly when the template does not parse, and it is that parse error; otherwise it is the executed template |
| Formatter.ParseErrorStopsExecution | output/formatter.go:86-89 | when the template does not parse, the result is the parse error whatever the report holds, so nothing of the data is rendered |
| Formatter.RenderCsvAppend | output/formatter.go:48-55 | the CSV rendering of two concatenated issue lists is the concatenation of their renderings (one row per issue, in order) |
| Formatter.CsvLayoutLines | output/formatter.go:48-55 | the CSV output has exactly one line per issue, and line i cut at its first five commas is [file, line, what, severity, confidence, quoted code] of issue i, each escaped |
| Formatter.CsvIgnoresStats | output/formatter.go:48-55 | reports with the same issues give the same CSV whatever their counters: no counter is written |
| Formatter.EmptyReport | output/formatter.go:34-55 | with no issues, CSV output is the empty string and text output is "Results:\n" followed directly by the summary block |
| Formatter.RenderText | output/formatter.go:34-46 | the text output begins with "Results:\n" and ends with the summary block of the report's counters |
| Formatter.TextLayoutLines | output/formatter.go:34-46 | the text output's lines are "Results:", then four lines per issue in input order (blank, "[file:line] - what (Confidence: c, Severity: s)", "  > code", blank), then blank, "Summary:", the Files, Lines, Nosec and Issues lines, and blank |
| Formatter.TextIssuesAppend | output/formatter.go:35-39 | the issue blocks of two concatenated lists are the blocks of the first list followed by the blocks of the second |
| Formatter.RenderTextAppend | output/formatter.go:34-46 | the text report of xs + ys holds the blocks of xs, then those of ys, between the heading and the summary |
| Formatter.NumFoundAsGiven | output/formatter.go:44 | the Issues line prints the NumFound counter as given: two reports that differ only in NumFound render differently, given an escaper that keeps distinct numerals distinct |
| HtmlEscaping.NumFoundAsGivenHtml | output/formatter.go:44 | with html/template's escaping, as the program uses it, two reports that differ only in NumFound render differently, with no hypothesis on the escaper |
| Strings.DecimalRoundTrip | output/formatter.go:41-44 | a counter printed in decimal reads back as the same int, so the summary loses no counter value |
| Strings.LinesOfUnlines | output/formatter.go:34-55 | text written line by line splits back into exactly those lines (the basis of both layout lemmas) |
| Strings.SplitOfJoin | output/formatter.go:49-54 | comma-joined fields cut at as many commas as there are gaps give the fields back when only the last field may hold a comma |
| HtmlEscaping.CsvCodeColumnAsWritten | output/formatter.go:54 | with html/template's escaping, the sixth CSV column of every issue starts with "&#34;" instead of the double quote %q produced |
| HtmlEscaping.CsvCodeColumnCorrected | output/formatter.go:54 | with values written verbatim, the sixth CSV column is exactly the %q-quoted code snippet |

## Left out

- JSON encoding: `json.MarshalIndent` is the uninterpreted `encodeJson`, so the model does not state that the JSON output decodes back to the report.
- The two `panic` calls in `reportJSON` (output/formatter.go:75 and :80): encoding and writing are modelled as total, because a panic is not a returned error.
- Writing to the `io.Writer` and the errors `Execute` can return from a failing writer: the output is the returned string, since the writer is I/O.
- A nil `*gas.Analyzer`: the report is a value, so the model does not capture the templates' nil-pointer execution error (returned after "Results:\n" is written for text) or JSON's `null`.
- Template parsing: the template texts are not parsed in the model. Whether each layout parses is the parameter `syntaxError`. The rendered layouts are stated directly, as the fixed templates produce them.
- html/template escaping, `%q` and the text of a score are uninterpreted in `Formatter`, so its layout theorems hold for any escaper. Only `HtmlEscaping` fixes the escaper, to state the finding.
- Counters are unbounded ints. Go's 64-bit int width is not modelled because the formatter only prints the counters.
- The issue's line is modelled as the text it prints as. The issue type is not part of this model. If the line is an int, it prints as its decimal, which is one such text.
- Formatter.CsvLayoutLines: the line and field structure is stated only for issues whose escaped fields hold no line break and whose first five escaped fields hold no comma. For other issues, the output is still the concatenation stated by RenderCsvAppend, but it does not cut back into fields. That is the behaviour of the code, which quotes only the code column.
- Formatter.TextLayoutLines: the line structure is stated only when the escaped values hold no line break. RenderText and RenderTextAppend hold for all inputs.
- Quoting in the CSV code column follows the code, which uses `%q` (Go string syntax with backslash escapes). It does not use doubled quotes in the style of RFC 4180. The model also follows the code in writing no trailing blank line after the last CSV row.

## Findings

| source | as written | input that shows it | evidently intended | confidence | as-written member | corrected member |
|---|---|---|---|---|---|---|
| output/formatter.go:19, 54 | the templates are parsed with html/template, so the double quotes `printf "%q"` puts around the code snippet are escaped to `&#34;` and the code column is not a quoted CSV field | an issue whose code is `key := "abc"`: its CSV code column comes out as `&#34;key := \&#34;abc\&#34;&#34;` | the code column is the `%q`-quoted snippet, as text/template writes it | high (not executed) | HtmlEscaping.CsvCodeColumnAsWritten | HtmlEscaping.CsvCodeColumnCorrected |

`Formatter` takes the escaper as a parameter, so every layout theorem above
also holds for the corrected, verbatim escaper (`HtmlEscaping.VerbatimEngine`).
The corrected lemma applies them to it.
