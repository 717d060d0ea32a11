/**
 * The CSV serialiser `generateCsv` of the archive endpoint: a header line with
 * seven column names, then one row per stock-take record, in input order,
 * joined by newlines. `itemId`, `status` and the pipe-joined recount history are
 * wrapped in double quotes without any escaping; the four quantities are bare
 * decimal integers.
 *
 * `DecodeCsv` is an independent reader of that layout; the round-trip lemma
 * `CsvRoundTrip` shows that the text determines the records whenever no
 * `itemId` or `status` contains a comma or a newline.
 */
module Csv {
  import opened Wrappers
  import opened Strings

  /** One line of the stock-take comparison sent by the browser. */
  datatype Record = Record(
    itemId: string,
    systemQty: int,
    initialPhysicalQty: int,
    finalPhysicalQty: int,
    difference: int,
    status: string,
    recountHistory: seq<int>)

  /** The seven column names, in column order. */
  const Columns: seq<string> := ["ItemID", "SystemBalance", "InitialPhysical", "FinalPhysical", "Difference", "Status", "RecountHistory"]

  /** "ItemID,SystemBalance,InitialPhysical,FinalPhysical,Difference,Status,RecountHistory" */
  const HeaderLine: string := Join(Columns, ',')

  /** The header as the source writes it: the column names and a newline. */
  const Header: string := HeaderLine + "\n"

  function Quote(s: string): string
  {
    "\"" + s + "\""
  }

  /** Takes off one pair of surrounding double quotes; whatever lies between them is kept verbatim. */
  function Unquote(field: string): (r: Option<string>)
    ensures r.Some? <==> |field| >= 2 && field[0] == '"' && field[|field| - 1] == '"'
    ensures r.Some? ==> field == Quote(r.value)
  {
    if |field| >= 2 && field[0] == '"' && field[|field| - 1] == '"' then Some(field[1..|field| - 1]) else None
  }

  /** The decimal renderings of a list of quantities, element by element (the `.join` input). */
  function IntStrings(xs: seq<int>): (r: seq<string>)
    ensures |r| == |xs|
    ensures forall i :: 0 <= i < |xs| ==> r[i] == IntToString(xs[i])
  {
    seq(|xs|, i requires 0 <= i < |xs| => IntToString(xs[i]))
  }

  /**
   * `r.recountHistory.join('|')`: empty exactly for an empty history, and never
   * holding a comma, a newline or a double quote, so it stays inside its quoted field.
   */
  function HistoryText(history: seq<int>): (text: string)
    ensures text == "" <==> history == []
    ensures ',' !in text && '\n' !in text && '"' !in text
  {
    var texts := IntStrings(history);
    forall i, ch | 0 <= i < |texts| && (ch == ',' || ch == '\n' || ch == '"') ensures ch !in texts[i] {
      IntTextFree(history[i], ch);
    }
    NotInJoin(texts, '|', ',');
    NotInJoin(texts, '|', '\n');
    NotInJoin(texts, '|', '"');
    JoinStartsWithFirst(texts, '|');
    Join(texts, '|')
  }

  /**
   * The row template string of `generateCsv`. Its layout: the seven fields of
   * `RowFields`, in column order, joined by commas; only `itemId`, `status` and
   * the history are quoted.
   */
  function Row(r: Record): (row: string)
    ensures row == Join(RowFields(r), ',')
  {
    var q1, q2, q3, q4 := IntToString(r.systemQty), IntToString(r.initialPhysicalQty),
      IntToString(r.finalPhysicalQty), IntToString(r.difference);
    var h := HistoryText(r.recountHistory);
    TemplateRegrouped(r.itemId, q1, q2, q3, q4, r.status, h);
    JoinSeven(Quote(r.itemId), q1, q2, q3, q4, Quote(r.status), Quote(h));
    "\"" + r.itemId + "\"," + q1 + "," + q2 + "," + q3 + "," + q4 + ",\"" + r.status + "\",\"" + h + "\""
  }

  /** `records.map(...)`: one row per record, row i rendering record i. */
  function Rows(records: seq<Record>): (rows: seq<string>)
    ensures |rows| == |records|
    ensures forall i :: 0 <= i < |records| ==> rows[i] == Row(records[i])
  {
    seq(|records|, i requires 0 <= i < |records| => Row(records[i]))
  }

  /**
   * `generateCsv(records)`: the header followed by the rows joined with newlines.
   * The text opens with the header, and is the header alone exactly when the
   * batch is empty (a row is never empty).
   */
  function GenerateCsv(records: seq<Record>): (text: string)
    ensures |text| >= |Header| && text[..|Header|] == Header
    ensures |records| == 0 <==> text == Header
  {
    var rows := Rows(records);
    JoinStartsWithFirst(rows, '\n');
    Header + Join(rows, '\n')
  }

  /** The seven fields of a row in column order, each as it appears in the text. */
  function RowFields(r: Record): seq<string>
  {
    [Quote(r.itemId), IntToString(r.systemQty), IntToString(r.initialPhysicalQty),
     IntToString(r.finalPhysicalQty), IntToString(r.difference), Quote(r.status),
     Quote(HistoryText(r.recountHistory))]
  }

  /** The only text fields that can hold a field or line separator are `itemId` and `status`. */
  predicate Splittable(r: Record)
  {
    ',' !in r.itemId && '\n' !in r.itemId && ',' !in r.status && '\n' !in r.status
  }

  // ---- reader ----

  function ParseInts(texts: seq<string>): (r: Option<seq<int>>)
    ensures r.Some? ==> |r.value| == |texts|
    decreases |texts|
  {
    if |texts| == 0 then Some([])
    else
      var x :- ParseInt(texts[0]);
      var rest :- ParseInts(texts[1..]);
      Some([x] + rest)
  }

  /** Reads the inside of the history field back; "" is the empty history. */
  function DecodeHistory(text: string): Option<seq<int>>
  {
    if text == "" then Some([]) else ParseInts(Split(text, '|'))
  }

  /** Reads one row: exactly seven comma-separated fields, quoted where the writer quotes. */
  function DecodeRow(line: string): Option<Record>
  {
    DecodeFields(Split(line, ','))
  }

  function DecodeFields(f: seq<string>): Option<Record>
  {
    if |f| != 7 then None
    else
      var itemId :- Unquote(f[0]);
      var systemQty :- ParseInt(f[1]);
      var initialQty :- ParseInt(f[2]);
      var finalQty :- ParseInt(f[3]);
      var difference :- ParseInt(f[4]);
      var status :- Unquote(f[5]);
      var historyText :- Unquote(f[6]);
      var history :- DecodeHistory(historyText);
      Some(Record(itemId, systemQty, initialQty, finalQty, difference, status, history))
  }

  function DecodeRows(lines: seq<string>): (r: Option<seq<Record>>)
    ensures r.Some? ==> |r.value| == |lines|
    decreases |lines|
  {
    if |lines| == 0 then Some([])
    else
      var x :- DecodeRow(lines[0]);
      var rest :- DecodeRows(lines[1..]);
      Some([x] + rest)
  }

  /** Reads a whole file: the exact header, then zero or more newline-separated rows. */
  function DecodeCsv(text: string): Option<seq<Record>>
  {
    if |text| < |Header| || text[..|Header|] != Header then None
    else
      var body := text[|Header|..];
      if body == "" then Some([]) else DecodeRows(Split(body, '\n'))
  }

  // ---- properties ----

  /** The history field is the recounts joined by '|' in their original order: reading it back gives them all. */
  lemma {:induction false} HistoryRoundTrip(history: seq<int>)
    ensures DecodeHistory(HistoryText(history)) == Some(history)
  {
    var texts := IntStrings(history);
    if |history| > 0 {
      JoinStartsWithFirst(texts, '|');
      forall i | 0 <= i < |texts| ensures '|' !in texts[i] {
        assert texts[i] == IntToString(history[i]);
      }
      SplitJoin(texts, '|');
      ParseIntsRoundTrip(history);
    }
  }

  lemma {:induction false} ParseIntsRoundTrip(xs: seq<int>)
    ensures ParseInts(IntStrings(xs)) == Some(xs)
    decreases |xs|
  {
    if |xs| > 0 {
      ParseIntToString(xs[0]);
      assert IntStrings(xs)[1..] == IntStrings(xs[1..]);
      ParseIntsRoundTrip(xs[1..]);
      assert [xs[0]] + xs[1..] == xs;
    }
  }

  /** No rendered quantity contains a comma, a pipe, a newline or a double quote. */
  lemma IntTextFree(n: int, ch: char)
    requires ch == ',' || ch == '|' || ch == '\n' || ch == '"'
    ensures ch !in IntToString(n)
  {
  }

  lemma JoinSeven(a: string, b: string, c: string, d: string, e: string, f: string, g: string)
    ensures Join([a, b, c, d, e, f, g], ',')
         == a + ([','] + (b + ([','] + (c + ([','] + (d + ([','] + (e + ([','] + (f + ([','] + g)))))))))))
  {
    JoinCons(f, [g], ',');
    assert [f] + [g] == [f, g];
    JoinCons(e, [f, g], ',');
    assert [e] + [f, g] == [e, f, g];
    JoinCons(d, [e, f, g], ',');
    assert [d] + [e, f, g] == [d, e, f, g];
    JoinCons(c, [d, e, f, g], ',');
    assert [c] + [d, e, f, g] == [c, d, e, f, g];
    JoinCons(b, [c, d, e, f, g], ',');
    assert [b] + [c, d, e, f, g] == [b, c, d, e, f, g];
    JoinCons(a, [b, c, d, e, f, g], ',');
    assert [a] + [b, c, d, e, f, g] == [a, b, c, d, e, f, g];
  }

  /** The row template regrouped around its six commas. */
  lemma TemplateRegrouped(id: string, q1: string, q2: string, q3: string, q4: string, st: string, h: string)
    ensures "\"" + id + "\"," + q1 + "," + q2 + "," + q3 + "," + q4 + ",\"" + st + "\",\"" + h + "\""
         == Quote(id) + ([','] + (q1 + ([','] + (q2 + ([','] + (q3 + ([','] + (q4 + ([','] + (Quote(st) + ([','] + Quote(h))))))))))))
  {
  }

  /**
   * Seven fields exactly: when `itemId` and `status` hold no comma, splitting a
   * row at its commas gives back the seven fields in order.
   */
  lemma RowSplitsIntoFields(r: Record)
    requires ',' !in r.itemId && ',' !in r.status
    ensures Split(Row(r), ',') == RowFields(r)
  {
    var f := RowFields(r);
    IntTextFree(r.systemQty, ',');
    IntTextFree(r.initialPhysicalQty, ',');
    IntTextFree(r.finalPhysicalQty, ',');
    IntTextFree(r.difference, ',');
    forall i | 0 <= i < 7 ensures ',' !in f[i] {
    }
    SplitJoin(f, ',');
  }

  /** A row without line breaks in its text fields is a single line. */
  lemma RowHasNoNewline(r: Record)
    requires '\n' !in r.itemId && '\n' !in r.status
    ensures '\n' !in Row(r)
  {
    IntTextFree(r.systemQty, '\n');
    IntTextFree(r.initialPhysicalQty, '\n');
    IntTextFree(r.finalPhysicalQty, '\n');
    IntTextFree(r.difference, '\n');
    NotInJoin(RowFields(r), ',', '\n');
  }

  lemma UnquoteQuote(s: string)
    ensures Unquote(Quote(s)) == Some(s)
  {
  }

  /** Each row reads back as the record it renders, `itemId` and `status` verbatim (quotes included). */
  lemma RowRoundTrip(r: Record)
    requires ',' !in r.itemId && ',' !in r.status
    ensures DecodeRow(Row(r)) == Some(r)
  {
    RowSplitsIntoFields(r);
    FieldsRoundTrip(r);
  }

  /** The seven rendered fields read back as the record. */
  lemma FieldsRoundTrip(r: Record)
    ensures DecodeFields(RowFields(r)) == Some(r)
  {
    UnquoteQuote(r.itemId);
    UnquoteQuote(r.status);
    UnquoteQuote(HistoryText(r.recountHistory));
    ParseIntToString(r.systemQty);
    ParseIntToString(r.initialPhysicalQty);
    ParseIntToString(r.finalPhysicalQty);
    ParseIntToString(r.difference);
    HistoryRoundTrip(r.recountHistory);
  }

  lemma {:induction false} RowsRoundTrip(records: seq<Record>)
    requires forall i :: 0 <= i < |records| ==> ',' !in records[i].itemId && ',' !in records[i].status
    ensures DecodeRows(Rows(records)) == Some(records)
    decreases |records|
  {
    if |records| > 0 {
      var rows := Rows(records);
      RowRoundTrip(records[0]);
      assert rows[0] == Row(records[0]);
      RowsTail(records);
      RowsRoundTrip(records[1..]);
      DecodeRowsCons(rows, records[0], records[1..]);
      assert [records[0]] + records[1..] == records;
    }
  }

  lemma DecodeRowsCons(lines: seq<string>, first: Record, rest: seq<Record>)
    requires |lines| > 0
    requires DecodeRow(lines[0]) == Some(first) && DecodeRows(lines[1..]) == Some(rest)
    ensures DecodeRows(lines) == Some([first] + rest)
  {
  }

  /**
   * Output shape: the text is the header line followed by exactly one line per
   * record, line i + 1 rendering record i. An empty batch leaves the header's
   * newline followed by an empty line.
   */
  lemma CsvLines(records: seq<Record>)
    requires forall i :: 0 <= i < |records| ==> '\n' !in records[i].itemId && '\n' !in records[i].status
    ensures |records| > 0 ==> Split(GenerateCsv(records), '\n') == [HeaderLine] + Rows(records)
    ensures |records| == 0 ==> Split(GenerateCsv(records), '\n') == [HeaderLine, ""]
  {
    var rows := Rows(records);
    HeaderSplit(Join(rows, '\n'));
    if |records| > 0 {
      RowsHaveNoNewline(records);
      SplitJoin(rows, '\n');
    }
  }

  /** The header line splits back into the seven column names and is a single line. */
  lemma HeaderColumns()
    ensures Split(HeaderLine, ',') == Columns
    ensures '\n' !in HeaderLine
  {
    forall i | 0 <= i < 7 ensures ',' !in Columns[i] && '\n' !in Columns[i] {
    }
    SplitJoin(Columns, ',');
    NotInJoin(Columns, ',', '\n');
  }

  /** The header is a line of its own: splitting after it leaves the body's own lines. */
  lemma HeaderSplit(body: string)
    ensures Split(Header + body, '\n') == [HeaderLine] + Split(body, '\n')
  {
    assert Header + body == HeaderLine + ['\n'] + body;
    HeaderColumns();
    LineSplit(HeaderLine, body);
  }

  lemma LineSplit(line: string, body: string)
    requires '\n' !in line
    ensures Split(line + ['\n'] + body, '\n') == [line] + Split(body, '\n')
  {
    SplitAround(line, body, '\n');
    SplitWithoutSeparator(line, '\n');
  }

  lemma RowsHaveNoNewline(records: seq<Record>)
    requires forall i :: 0 <= i < |records| ==> '\n' !in records[i].itemId && '\n' !in records[i].status
    ensures forall i :: 0 <= i < |records| ==> '\n' !in Rows(records)[i]
  {
    forall i | 0 <= i < |records| ensures '\n' !in Rows(records)[i] {
      RowHasNoNewline(records[i]);
    }
  }

  /** Row count and row order: one line more than there are records, the rows in input order. */
  lemma CsvRowOrder(records: seq<Record>, i: nat)
    requires forall j :: 0 <= j < |records| ==> '\n' !in records[j].itemId && '\n' !in records[j].status
    requires i < |records|
    ensures |Split(GenerateCsv(records), '\n')| == 1 + |records|
    ensures Split(GenerateCsv(records), '\n')[i + 1] == Row(records[i])
  {
    CsvLines(records);
  }

  /** The serialised text determines the batch: reading it back gives the records, in order. */
  lemma CsvRoundTrip(records: seq<Record>)
    requires forall i :: 0 <= i < |records| ==> Splittable(records[i])
    ensures DecodeCsv(GenerateCsv(records)) == Some(records)
  {
    var text := GenerateCsv(records);
    var rows := Rows(records);
    assert text[..|Header|] == Header;
    assert text[|Header|..] == Join(rows, '\n');
    if |records| > 0 {
      assert rows[0] == Row(records[0]);
      JoinStartsWithFirst(rows, '\n');
      RowsHaveNoNewline(records);
      SplitJoin(rows, '\n');
      RowsRoundTrip(records);
    }
  }

  /** The line breaks written verbatim inside the text fields of a batch: those of each `itemId` and `status`. */
  function EmbeddedNewlines(records: seq<Record>): nat
  {
    if |records| == 0 then 0
    else multiset(records[0].itemId)['\n'] + multiset(records[0].status)['\n'] + EmbeddedNewlines(records[1..])
  }

  /** A row holds exactly the line breaks of its `itemId` and `status`. */
  lemma RowNewlines(r: Record)
    ensures multiset(Row(r))['\n'] == multiset(r.itemId)['\n'] + multiset(r.status)['\n']
  {
    var q1, q2, q3, q4 := IntToString(r.systemQty), IntToString(r.initialPhysicalQty),
      IntToString(r.finalPhysicalQty), IntToString(r.difference);
    var h := HistoryText(r.recountHistory);
    IntTextFree(r.systemQty, '\n');
    IntTextFree(r.initialPhysicalQty, '\n');
    IntTextFree(r.finalPhysicalQty, '\n');
    IntTextFree(r.difference, '\n');
    TemplateNewlines(r.itemId, q1, q2, q3, q4, r.status, h);
  }

  /** The template's literal parts hold no line break, so only the two free-text fields can add one. */
  lemma TemplateNewlines(id: string, q1: string, q2: string, q3: string, q4: string, st: string, h: string)
    requires '\n' !in q1 && '\n' !in q2 && '\n' !in q3 && '\n' !in q4 && '\n' !in h
    ensures multiset("\"" + id + "\"," + q1 + "," + q2 + "," + q3 + "," + q4 + ",\"" + st + "\",\"" + h + "\"")['\n']
         == multiset(id)['\n'] + multiset(st)['\n']
  {
    var n := multiset(id)['\n'];
    var s1 := "\"" + id + "\",";
    assert multiset(s1)['\n'] == n;
    var s2 := s1 + q1 + "," + q2;
    assert multiset(s2)['\n'] == n;
    var s3 := s2 + "," + q3 + "," + q4;
    assert multiset(s3)['\n'] == n;
    var s4 := s3 + ",\"" + st;
    assert multiset(s4)['\n'] == n + multiset(st)['\n'];
    var s5 := s4 + "\",\"" + h + "\"";
    assert multiset(s5)['\n'] == multiset(s4)['\n'];
  }

  /** The line breaks inside a list of texts. */
  function LineBreaks(lines: seq<string>): nat
  {
    if |lines| == 0 then 0 else multiset(lines[0])['\n'] + LineBreaks(lines[1..])
  }

  /** Joining n texts with newlines adds n - 1 line breaks to those inside them. */
  lemma {:induction false} JoinedNewlines(lines: seq<string>)
    requires |lines| >= 1
    ensures multiset(Join(lines, '\n'))['\n'] == |lines| - 1 + LineBreaks(lines)
    decreases |lines|
  {
    if |lines| >= 2 {
      var first, rest := lines[0], Join(lines[1..], '\n');
      JoinedNewlines(lines[1..]);
      assert Join(lines, '\n') == (first + ['\n']) + rest;
      assert multiset(first + ['\n'])['\n'] == multiset(first)['\n'] + 1;
    }
  }

  /** The rows hold exactly the line breaks of the records' `itemId` and `status` fields. */
  lemma {:induction false} RowsNewlines(records: seq<Record>)
    ensures LineBreaks(Rows(records)) == EmbeddedNewlines(records)
    decreases |records|
  {
    if |records| > 0 {
      var rows := Rows(records);
      RowsTail(records);
      RowsNewlines(records[1..]);
      RowNewlines(records[0]);
      assert rows[0] == Row(records[0]);
      assert LineBreaks(rows) == multiset(rows[0])['\n'] + LineBreaks(rows[1..]);
      assert EmbeddedNewlines(records)
          == multiset(records[0].itemId)['\n'] + multiset(records[0].status)['\n'] + EmbeddedNewlines(records[1..]);
    }
  }

  /** The rows after the first are the rows of the remaining records. */
  lemma RowsTail(records: seq<Record>)
    requires |records| > 0
    ensures Rows(records)[1..] == Rows(records[1..])
  {
  }

  /**
   * Line count without escaping: every line break inside an `itemId` or a
   * `status` adds a line, so the text has 1 + |records| lines only when there is none.
   */
  lemma CsvLineCount(records: seq<Record>)
    requires |records| >= 1
    ensures |Split(GenerateCsv(records), '\n')| == 1 + |records| + EmbeddedNewlines(records)
  {
    var body := Join(Rows(records), '\n');
    HeaderSplit(body);
    SplitCount(body, '\n');
    JoinedNewlines(Rows(records));
    RowsNewlines(records);
  }

  /**
   * No escaping: every comma inside `itemId` or `status` is written verbatim and
   * adds one field to the row, so a row has seven fields only when they hold none.
   */
  lemma RowFieldCount(r: Record)
    ensures |Split(Row(r), ',')| == 7 + multiset(r.itemId)[','] + multiset(r.status)[',']
  {
    var f := RowFields(r);
    IntTextFree(r.systemQty, ',');
    IntTextFree(r.initialPhysicalQty, ',');
    IntTextFree(r.finalPhysicalQty, ',');
    IntTextFree(r.difference, ',');
    JoinSeven(f[0], f[1], f[2], f[3], f[4], f[5], f[6]);
    assert f == [f[0], f[1], f[2], f[3], f[4], f[5], f[6]];
    NestedFieldCount(r.itemId, f[1], f[2], f[3], f[4], r.status, HistoryText(r.recountHistory));
  }

  lemma NestedFieldCount(id: string, q1: string, q2: string, q3: string, q4: string, st: string, h: string)
    requires ',' !in q1 && ',' !in q2 && ',' !in q3 && ',' !in q4 && ',' !in h
    ensures |Split(Quote(id) + ([','] + (q1 + ([','] + (q2 + ([','] + (q3 + ([','] + (q4 + ([','] + (Quote(st) + ([','] + Quote(h)))))))))))), ',')|
         == 7 + multiset(id)[','] + multiset(st)[',']
  {
    var r6 := Quote(h);
    var r5 := Quote(st) + ([','] + r6);
    var r4 := q4 + ([','] + r5);
    var r3 := q3 + ([','] + r4);
    var r2 := q2 + ([','] + r3);
    var r1 := q1 + ([','] + r2);
    SplitNested(Quote(id), r1);
    SplitNested(q1, r2);
    SplitNested(q2, r3);
    SplitNested(q3, r4);
    SplitNested(q4, r5);
    SplitNested(Quote(st), r6);
    SplitWithoutSeparator(q1, ',');
    SplitWithoutSeparator(q2, ',');
    SplitWithoutSeparator(q3, ',');
    SplitWithoutSeparator(q4, ',');
    QuotedFieldCount(id);
    QuotedFieldCount(st);
    QuotedFieldCount(h);
    assert multiset(h)[','] == 0;
  }

  lemma SplitNested(a: string, b: string)
    ensures |Split(a + ([','] + b), ',')| == |Split(a, ',')| + |Split(b, ',')|
  {
    SplitAround(a, b, ',');
    assert a + ([','] + b) == a + [','] + b;
  }

  /** Quoting adds no field separator. */
  lemma QuotedFieldCount(s: string)
    ensures |Split(Quote(s), ',')| == multiset(s)[','] + 1
  {
    SplitCount(Quote(s), ',');
    assert multiset(Quote(s))[','] == multiset(s)[','];
  }
}
