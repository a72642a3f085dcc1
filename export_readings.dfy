/** The CSV export edge function (supabase/functions/export-readings): the readings, optionally
    limited to a date range, as a CSV file with a fixed header line and one line per reading. */
module ExportReadings {
  import opened Wrappers
  import opened Json
  import opened Strings
  import opened Http
  import opened Store

  /** The header columns, in order. */
  const Header: seq<string> := ["Timestamp", "pH", "EC (µS/cm)", "Temp. Ar (°C)", "Umidade (%)", "Temp. Água (°C)"]

  /** How the runtime renders values as text: `toLocaleString('pt-BR')` of a timestamp, and the
      default conversion of a number in `Array.prototype.join`. */
  datatype Formats = Formats(date: int -> string, number: real -> string)

  // ---------------------------------------------------------------------------------------------
  // The query

  /** The `readings` query: ordered by timestamp, with an optional lower and upper bound. */
  datatype ReadingsQuery = ReadingsQuery(ascending: bool, from: Option<string>, until: Option<string>)

  /** The query the handler builds from the `start_date` and `end_date` search parameters
      (`None` when a parameter is absent). A bound is added only for a non-empty value. */
  method BuildQuery(startDate: Option<string>, endDate: Option<string>) returns (q: ReadingsQuery)
    ensures q.ascending
    ensures q.from.Some? <==> startDate.Some? && startDate.value != ""
    ensures q.from.Some? ==> q.from == startDate
    ensures q.until.Some? <==> endDate.Some? && endDate.value != ""
    ensures q.until.Some? ==> q.until == endDate
  {
    q := ReadingsQuery(true, None, None);
    if startDate.Some? && startDate.value != "" {
      q := q.(from := startDate);
    }
    if endDate.Some? && endDate.value != "" {
      q := q.(until := endDate);
    }
  }

  // ---------------------------------------------------------------------------------------------
  // The CSV text

  /** The six cells of a reading, in header order. */
  function Cells(r: Reading, fmt: Formats): (cells: seq<string>)
    ensures |cells| == |Header|
  {
    [fmt.date(r.timestamp), fmt.number(r.ph), fmt.number(r.ec), fmt.number(r.airTemp),
     fmt.number(r.humidity), fmt.number(r.waterTemp)]
  }

  /** A cell as written to the file: as is, or (`quoted`) enclosed in double quotes with each inner
      double quote doubled, as section 2 rules 5-7 of RFC 4180 allow. */
  function Field(cell: string, quoted: bool): string {
    if quoted then Quote(cell) else cell
  }

  function Quote(cell: string): string {
    "\"" + Escape(cell) + "\""
  }

  function Escape(cell: string): string {
    if cell == [] then []
    else if cell[0] == '"' then ['"', '"'] + Escape(cell[1..])
    else [cell[0]] + Escape(cell[1..])
  }

  function Fields(cells: seq<string>, quoted: bool): (fields: seq<string>)
    ensures |fields| == |cells|
    ensures forall i :: 0 <= i < |cells| ==> fields[i] == Field(cells[i], quoted)
  {
    seq(|cells|, i requires 0 <= i < |cells| => Field(cells[i], quoted))
  }

  function HeaderLine(): string {
    Join(Header, ",")
  }

  function RowLine(r: Reading, fmt: Formats, quoted: bool): string {
    Join(Fields(Cells(r, fmt), quoted), ",")
  }

  /** One line per reading, in query order. */
  function RowLines(readings: seq<Reading>, fmt: Formats, quoted: bool): (rows: seq<string>)
    ensures |rows| == |readings|
    ensures forall i :: 0 <= i < |readings| ==> rows[i] == RowLine(readings[i], fmt, quoted)
  {
    seq(|readings|, i requires 0 <= i < |readings| => RowLine(readings[i], fmt, quoted))
  }

  /** The lines of the file: the header, then one line per reading in query order. */
  function CsvLines(readings: seq<Reading>, fmt: Formats, quoted: bool): (lines: seq<string>)
    ensures |lines| == |readings| + 1
    ensures lines[0] == HeaderLine()
    ensures forall i :: 0 <= i < |readings| ==> lines[i + 1] == RowLine(readings[i], fmt, quoted)
  {
    var rows := RowLines(readings, fmt, quoted);
    assert forall i :: 0 <= i < |readings| ==> ([HeaderLine()] + rows)[i + 1] == rows[i];
    [HeaderLine()] + rows
  }

  /** Builds the file: `csvRows` starts with the header and grows by one line per reading, and the
      lines are joined with '\n'. The handler writes cells as they are (`quoted` false); the
      corrected export quotes them. */
  method BuildCsv(readings: seq<Reading>, fmt: Formats, quoted: bool) returns (csv: string)
    ensures csv == Join(CsvLines(readings, fmt, quoted), "\n")
  {
    ghost var rows := RowLines(readings, fmt, quoted);
    var csvRows := [HeaderLine()];
    var i := 0;
    while i < |readings|
      invariant 0 <= i <= |readings|
      invariant csvRows == [HeaderLine()] + rows[..i]
    {
      assert rows[..i + 1] == rows[..i] + [rows[i]];
      csvRows := csvRows + [RowLine(readings[i], fmt, quoted)];
      i := i + 1;
    }
    assert rows[..i] == rows;
    csv := Join(csvRows, "\n");
  }

  // ---------------------------------------------------------------------------------------------
  // Lines and columns

  /** A character in neither the parts nor the separator is not in their join. */
  lemma {:induction false} JoinAvoids(parts: seq<string>, sep: string, c: char)
    requires c !in sep
    requires forall i :: 0 <= i < |parts| ==> c !in parts[i]
    ensures c !in Join(parts, sep)
  {
    if |parts| > 1 {
      JoinAvoids(parts[1..], sep, c);
    }
  }

  /** No cell rendering holds the character c. */
  predicate RenderingsAvoid(readings: seq<Reading>, fmt: Formats, c: char) {
    forall i :: 0 <= i < |readings| ==> forall k :: 0 <= k < |Header| ==> c !in Cells(readings[i], fmt)[k]
  }

  /** The header line is a single line. */
  lemma HeaderAvoidsLineBreak()
    ensures '\n' !in HeaderLine()
  {
    JoinAvoids(Header, ",", '\n');
  }

  /** A character other than the comma that no cell of a reading holds is not in its plain line. */
  lemma RowAvoids(r: Reading, fmt: Formats, c: char)
    requires c != ','
    requires RenderingsAvoid([r], fmt, c)
    ensures c !in RowLine(r, fmt, false)
  {
    var cells := Cells(r, fmt);
    assert Fields(cells, false) == cells;
    assert forall k :: 0 <= k < |cells| ==> c !in cells[k] by {
      assert [r][0] == r;
    }
    JoinAvoids(cells, ",", c);
  }

  /** When no rendering holds a line break, splitting the file at '\n' gives back exactly its lines:
      the header and one line per reading, with no trailing empty line. */
  lemma LinesRecovered(readings: seq<Reading>, fmt: Formats)
    requires RenderingsAvoid(readings, fmt, '\n')
    ensures Split(Join(CsvLines(readings, fmt, false), "\n"), '\n') == CsvLines(readings, fmt, false)
  {
    var lines := CsvLines(readings, fmt, false);
    forall j | 0 <= j < |lines|
      ensures '\n' !in lines[j]
    {
      if j == 0 {
        HeaderAvoidsLineBreak();
      } else {
        RowAvoids(readings[j - 1], fmt, '\n');
        assert lines[(j - 1) + 1] == RowLine(readings[j - 1], fmt, false);
      }
    }
    SplitJoin(lines, '\n');
  }

  /** The header splits into its six columns. */
  lemma HeaderColumns()
    ensures Split(HeaderLine(), ',') == Header
  {
    SplitJoin(Header, ',');
  }

  /** When no rendering of a reading holds a comma, its line splits into its six cells. */
  lemma RowColumns(r: Reading, fmt: Formats)
    requires RenderingsAvoid([r], fmt, ',')
    ensures Split(RowLine(r, fmt, false), ',') == Cells(r, fmt)
  {
    var cells := Cells(r, fmt);
    assert Fields(cells, false) == cells;
    forall k | 0 <= k < |cells|
      ensures ',' !in cells[k]
    {
      assert [r][0] == r;
    }
    SplitJoin(cells, ',');
  }

  /** A part holding the separator joins like the two parts around it. */
  lemma {:induction false} JoinSplitPart(a: string, b: string, rest: seq<string>, sep: char)
    requires |rest| >= 1
    ensures Join([a + [sep] + b] + rest, [sep]) == Join([a, b] + rest, [sep])
  {
    assert ([a + [sep] + b] + rest)[1..] == rest;
    assert ([a, b] + rest)[1..] == [b] + rest;
    assert ([b] + rest)[1..] == rest;
  }

  /** As written, the pt-BR rendering of a timestamp, which holds ", " between the date and the time,
      adds a column: the line of such a reading splits into seven fields under a six-column header. */
  lemma CommaInDateShiftsColumns(r: Reading, fmt: Formats)
    requires fmt.date(r.timestamp) == "19/10/2026, 14:30:00"
    requires forall k :: 1 <= k < |Header| ==> ',' !in Cells(r, fmt)[k]
    ensures |Split(RowLine(r, fmt, false), ',')| == |Header| + 1
  {
    var cells := Cells(r, fmt);
    var parts := ["19/10/2026", " 14:30:00"] + cells[1..];
    assert Fields(cells, false) == cells;
    assert cells[0] == "19/10/2026" + [','] + " 14:30:00";
    assert cells == [cells[0]] + cells[1..];
    JoinSplitPart("19/10/2026", " 14:30:00", cells[1..], ',');
    forall k | 0 <= k < |parts|
      ensures ',' !in parts[k]
    {
      if k >= 2 {
        assert parts[k] == cells[k - 1];
      }
    }
    SplitJoin(parts, ',');
  }

  // ---------------------------------------------------------------------------------------------
  // Reading a record back (section 2 of RFC 4180)

  /** The text of a quoted field up to its closing quote ("" stands for one quote), and what follows
      that quote. An unterminated field runs to the end. */
  function QuotedText(s: string): (r: (string, string))
    ensures |r.1| <= |s|
  {
    if s == [] then ([], [])
    else if s[0] == '"' then
      if |s| >= 2 && s[1] == '"' then
        var t := QuotedText(s[2..]); ("\"" + t.0, t.1)
      else ([], s[1..])
    else
      var t := QuotedText(s[1..]); ([s[0]] + t.0, t.1)
  }

  /** The text of a plain field: everything up to the next comma. */
  function PlainText(s: string): (r: (string, string))
    ensures |r.1| <= |s|
    ensures r.1 == [] || r.1[0] == ','
  {
    if s == [] || s[0] == ',' then ([], s)
    else var t := PlainText(s[1..]); ([s[0]] + t.0, t.1)
  }

  /** One field at the start of s, and the text after it. */
  function NextField(s: string): (r: (string, string))
    ensures |r.1| <= |s|
  {
    if s != [] && s[0] == '"' then QuotedText(s[1..]) else PlainText(s)
  }

  /** The fields of one record: a field, then more fields after each comma. */
  function ParseRecord(s: string): seq<string>
    decreases |s|
  {
    var (field, rest) := NextField(s);
    if rest == [] then [field] else [field] + ParseRecord(rest[1..])
  }

  /** A doubled quote inside a quoted field stands for one quote. */
  lemma QuotedTextPair(x: string)
    ensures QuotedText(['"', '"'] + x) == (['"'] + QuotedText(x).0, QuotedText(x).1)
  {
    assert (['"', '"'] + x)[2..] == x;
  }

  /** Any other character inside a quoted field stands for itself. */
  lemma QuotedTextOther(c: char, x: string)
    requires c != '"'
    ensures QuotedText([c] + x) == ([c] + QuotedText(x).0, QuotedText(x).1)
  {
    assert ([c] + x)[1..] == x;
  }

  /** Escaping works character by character. */
  lemma EscapeCons(c: char, rest: string)
    ensures Escape([c] + rest) == (if c == '"' then ['"', '"'] else [c]) + Escape(rest)
  {
    assert ([c] + rest)[1..] == rest;
  }

  /** Reading back one more escaped character at the front of a quoted field. */
  lemma QuotedTextStep(c: char, rest: string, t: string)
    requires QuotedText(Escape(rest) + ['"'] + t) == (rest, t)
    ensures QuotedText(Escape([c] + rest) + ['"'] + t) == ([c] + rest, t)
  {
    var x := Escape(rest) + ['"'] + t;
    EscapeCons(c, rest);
    if c == '"' {
      assert Escape([c] + rest) + ['"'] + t == ['"', '"'] + x;
      QuotedTextPair(x);
    } else {
      assert Escape([c] + rest) + ['"'] + t == [c] + x;
      QuotedTextOther(c, x);
    }
  }

  /** A quoted field reads back as the cell it quotes, and the reading stops right after it. */
  lemma {:induction false} QuotedTextEscape(cell: string, t: string)
    requires t == [] || t[0] != '"'
    ensures QuotedText(Escape(cell) + ['"'] + t) == (cell, t)
  {
    if cell == [] {
      assert Escape(cell) + ['"'] + t == ['"'] + t;
      assert (['"'] + t)[1..] == t;
    } else {
      QuotedTextEscape(cell[1..], t);
      QuotedTextStep(cell[0], cell[1..], t);
      assert [cell[0]] + cell[1..] == cell;
    }
  }

  lemma NextFieldQuoted(cell: string, t: string)
    requires t == [] || t[0] != '"'
    ensures NextField(Quote(cell) + t) == (cell, t)
  {
    var s := Quote(cell) + t;
    assert s[1..] == Escape(cell) + ['"'] + t;
    QuotedTextEscape(cell, t);
  }

  /** Whatever the cells hold (commas, quotes, line breaks), a record of quoted fields reads back as
      exactly those cells. */
  lemma {:induction false} QuotedRecordRoundTrip(cells: seq<string>)
    requires |cells| >= 1
    ensures ParseRecord(Join(Fields(cells, true), ",")) == cells
  {
    var fields := Fields(cells, true);
    if |cells| == 1 {
      NextFieldQuoted(cells[0], []);
      assert Quote(cells[0]) + [] == Quote(cells[0]);
    } else {
      var tail := Join(fields[1..], ",");
      assert Fields(cells[1..], true) == fields[1..];
      QuotedRecordRoundTrip(cells[1..]);
      NextFieldQuoted(cells[0], "," + tail);
      assert Join(fields, ",") == Quote(cells[0]) + ("," + tail);
      assert ("," + tail)[1..] == tail;
      assert [cells[0]] + cells[1..] == cells;
    }
  }

  /** With quoted fields every line of a reading reads back as its six cells, so the columns stay
      aligned with the header whatever the timestamp rendering holds. */
  lemma QuotedRowRoundTrip(r: Reading, fmt: Formats)
    ensures ParseRecord(RowLine(r, fmt, true)) == Cells(r, fmt)
    ensures |ParseRecord(RowLine(r, fmt, true))| == |Header|
  {
    QuotedRecordRoundTrip(Cells(r, fmt));
  }

  // ---------------------------------------------------------------------------------------------
  // The handler

  /** What the function answers: a CSV attachment, or a JSON error. */
  datatype Reply = CsvFile(filename: string, text: string) | JsonError(response: Response)

  /** The download name; `today` is the date part of the current ISO timestamp. */
  function FileName(today: string): string {
    "leituras_aquasys_" + today + ".csv"
  }

  /** Handles one request as the function is written: the cells are joined unquoted. `answer` is
      what the database returns for the query built from the search parameters: the rows, in
      ascending timestamp order, or an error. */
  method Serve(startDate: Option<string>, endDate: Option<string>, answer: ReadingsQuery -> Result<seq<Reading>, DbError>,
               fmt: Formats, today: string) returns (reply: Reply, q: ReadingsQuery)
    ensures q.ascending
    ensures q.from.Some? <==> startDate.Some? && startDate.value != ""
    ensures q.from.Some? ==> q.from == startDate
    ensures q.until.Some? <==> endDate.Some? && endDate.value != ""
    ensures q.until.Some? ==> q.until == endDate
    ensures answer(q).Err? ==> reply == JsonError(ErrorResponse(500, "Erro desconhecido"))
    ensures answer(q).Ok? ==> reply == CsvFile(FileName(today), Join(CsvLines(answer(q).value, fmt, false), "\n"))
  {
    reply, q := Export(startDate, endDate, answer, fmt, today, false);
  }

  /** The corrected handler: the same request handling, with every cell written quoted so that each
      line reads back as its six cells (QuotedRowRoundTrip). */
  method ServeQuoted(startDate: Option<string>, endDate: Option<string>, answer: ReadingsQuery -> Result<seq<Reading>, DbError>,
                     fmt: Formats, today: string) returns (reply: Reply, q: ReadingsQuery)
    ensures q.ascending
    ensures q.from.Some? <==> startDate.Some? && startDate.value != ""
    ensures q.from.Some? ==> q.from == startDate
    ensures q.until.Some? <==> endDate.Some? && endDate.value != ""
    ensures q.until.Some? ==> q.until == endDate
    ensures answer(q).Err? ==> reply == JsonError(ErrorResponse(500, "Erro desconhecido"))
    ensures answer(q).Ok? ==> reply == CsvFile(FileName(today), Join(CsvLines(answer(q).value, fmt, true), "\n"))
    ensures answer(q).Ok? ==> forall i :: 0 <= i < |answer(q).value| ==>
      ParseRecord(CsvLines(answer(q).value, fmt, true)[i + 1]) == Cells(answer(q).value[i], fmt)
  {
    reply, q := Export(startDate, endDate, answer, fmt, today, true);
    if answer(q).Ok? {
      var rows := answer(q).value;
      forall i | 0 <= i < |rows|
        ensures ParseRecord(CsvLines(rows, fmt, true)[i + 1]) == Cells(rows[i], fmt)
      {
        QuotedRowRoundTrip(rows[i], fmt);
      }
    }
  }

  /** The steps both handlers share: the query, then the file or the error. */
  method Export(startDate: Option<string>, endDate: Option<string>, answer: ReadingsQuery -> Result<seq<Reading>, DbError>,
                fmt: Formats, today: string, quoted: bool) returns (reply: Reply, q: ReadingsQuery)
    ensures q.ascending
    ensures q.from.Some? <==> startDate.Some? && startDate.value != ""
    ensures q.from.Some? ==> q.from == startDate
    ensures q.until.Some? <==> endDate.Some? && endDate.value != ""
    ensures q.until.Some? ==> q.until == endDate
    ensures answer(q).Err? ==> reply == JsonError(ErrorResponse(500, "Erro desconhecido"))
    ensures answer(q).Ok? ==> reply == CsvFile(FileName(today), Join(CsvLines(answer(q).value, fmt, quoted), "\n"))
  {
    q := BuildQuery(startDate, endDate);
    var result := answer(q);
    if result.Err? {
      return JsonError(Caught(Thrown(result.error.message, false))), q;
    }
    var csv := BuildCsv(result.value, fmt, quoted);
    reply := CsvFile(FileName(today), csv);
  }
}
