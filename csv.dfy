/**
  CSV export of the report history: a fixed prefix, a header line and one
  line per report, comma-separated, with no quoting or escaping.
*/
module CsvExport {
  import opened Wrappers
  import opened Types
  import opened Strings

  const Prefix := "data:text/csv;charset=utf-8,"

  const Headers: seq<string> := [
    "Fecha", "Turno", "Ventas Sistema", "Efectivo Sistema", "Electr\U{F3}nico Sistema",
    "Delivery Sistema", "Total Real", "Efectivo Real", "Electr\U{F3}nico Real", "Delivery Real",
    "Gastos", "Diferencia", "Estado"]

  /** `headers.join(",")`, the first line of the content: a single line. */
  function HeaderLine(): (r: string)
    ensures '\n' !in r
  {
    HeadersHaveNoLineBreak();
    JoinKeepsOut(Headers, ',', '\n');
    Join(Headers, ',')
  }

  /** The status as its string value in the report. */
  function StatusName(s: Status): string
  {
    match s
    case Balanced => "BALANCED"
    case Shortage => "SHORTAGE"
    case Surplus => "SURPLUS"
    case ReviewRequired => "REVIEW_REQUIRED"
  }

  /** The 13 cells of a report's row; `show` is JavaScript's
      number-to-string. The `currentAccount` and `other` buckets and the
      warnings and notes are not exported. */
  function RowFields(r: DailyReport, show: int -> string): (f: seq<string>)
    ensures |f| == |Headers| == 13
    ensures f[0] == r.date && f[1] == r.shiftNumber && f[12] == StatusName(r.status)
  {
    [ r.date, r.shiftNumber,
      show(r.systemTotal), show(r.systemBreakdown.cash), show(r.systemBreakdown.electronic),
      show(r.systemBreakdown.deliveryApps),
      show(r.realTotal), show(r.realBreakdown.cash), show(r.realBreakdown.electronic),
      show(r.realBreakdown.deliveryApps),
      show(r.expenses), show(r.difference), StatusName(r.status) ]
  }

  /** `e.join(",")` for one report's row; when no cell holds a comma it
      splits back into the 13 cells. */
  function RowLine(r: DailyReport, show: int -> string): (line: string)
    ensures (forall k :: 0 <= k < |Headers| ==> ',' !in RowFields(r, show)[k]) ==>
      Split(line, ',') == RowFields(r, show)
  {
    var f := RowFields(r, show);
    if forall k :: 0 <= k < |f| ==> ',' !in f[k] then
      SplitJoin(f, ',');
      Join(f, ',')
    else
      Join(f, ',')
  }

  /** `rows.map(e => e.join(","))`: one line per report, in input order. */
  function RowLines(reports: seq<DailyReport>, show: int -> string): (lines: seq<string>)
    ensures |lines| == |reports|
    ensures forall i :: 0 <= i < |reports| ==> lines[i] == RowLine(reports[i], show)
  {
    if |reports| == 0 then []
    else [RowLine(reports[0], show)] + RowLines(reports[1..], show)
  }

  /** The content of `exportToCSV`; `None` when there is nothing to export.
      After the prefix, the content is the header line and the report lines
      joined by line breaks, without a trailing line break. */
  function ExportToCsv(reports: seq<DailyReport>, show: int -> string): (r: Option<string>)
    ensures r.None? <==> |reports| == 0
    ensures r.Some? ==> |Prefix| <= |r.value| && r.value[..|Prefix|] == Prefix
    ensures r.Some? ==>
      r.value[|Prefix|..] == Join([HeaderLine()] + RowLines(reports, show), '\n')
  {
    if |reports| == 0 then None
    else
      var header, rows := HeaderLine(), RowLines(reports, show);
      var body := header + "\n" + Join(rows, '\n');
      JoinCons(header, rows, '\n');
      SplitAfter(Prefix, body);
      Some(Prefix + body)
  }

  lemma SplitAfter(p: string, s: string)
    ensures (p + s)[..|p|] == p && (p + s)[|p|..] == s
  {
  }

  lemma JoinCons(x: string, rest: seq<string>, sep: char)
    requires |rest| > 0
    ensures Join([x] + rest, sep) == x + [sep] + Join(rest, sep)
  {
    assert ([x] + rest)[1..] == rest;
  }

  /** A cell that can be read back: no comma and no line break. */
  predicate Plain(s: string)
  {
    ',' !in s && '\n' !in s
  }

  lemma HeadersHaveNoLineBreak()
    ensures forall i :: 0 <= i < |Headers| ==> '\n' !in Headers[i]
  {
  }

  /** A report line whose cells hold no comma splits back into its 13 cells
      and holds no line break. */
  lemma RowReadsBack(r: DailyReport, show: int -> string)
    requires forall x :: Plain(show(x))
    requires Plain(r.date) && Plain(r.shiftNumber)
    ensures Split(RowLine(r, show), ',') == RowFields(r, show)
    ensures '\n' !in RowLine(r, show)
  {
    var f := RowFields(r, show);
    assert Plain(StatusName(r.status));
    assert forall k :: 0 <= k < |f| ==> Plain(f[k]);
    SplitJoin(f, ',');
    JoinKeepsOut(f, ',', '\n');
  }

  /** Lines without a line break, joined by line breaks, split back. */
  lemma {:induction false} LinesReadBack(first: string, rest: seq<string>)
    requires '\n' !in first
    requires forall i :: 0 <= i < |rest| ==> '\n' !in rest[i]
    ensures Split(Join([first] + rest, '\n'), '\n') == [first] + rest
  {
    SplitJoin([first] + rest, '\n');
  }

  /** When no cell holds a comma or a line break, the content splits back
      into |reports| + 1 lines (the header line, then one per report in
      order), and each report line splits back into its 13 cells. */
  lemma {:induction false} CsvReadsBack(reports: seq<DailyReport>, show: int -> string)
    requires |reports| > 0
    requires forall x :: Plain(show(x))
    requires forall i :: 0 <= i < |reports| ==> Plain(reports[i].date) && Plain(reports[i].shiftNumber)
    ensures var lines := Split(ExportToCsv(reports, show).value[|Prefix|..], '\n');
      && |lines| == |reports| + 1
      && lines[0] == HeaderLine()
      && forall i :: 0 <= i < |reports| ==> Split(lines[i + 1], ',') == RowFields(reports[i], show)
  {
    var rows := RowLines(reports, show);
    forall i | 0 <= i < |reports|
      ensures Split(rows[i], ',') == RowFields(reports[i], show)
      ensures '\n' !in rows[i]
    {
      RowReadsBack(reports[i], show);
    }
    LinesReadBack(HeaderLine(), rows);
  }

  /** Joining never introduces a character other than the separator. */
  lemma {:induction false} JoinKeepsOut(parts: seq<string>, sep: char, c: char)
    requires c != sep
    requires forall i :: 0 <= i < |parts| ==> c !in parts[i]
    ensures c !in Join(parts, sep)
  {
    if |parts| > 1 {
      JoinKeepsOut(parts[1..], sep, c);
    }
  }
}
