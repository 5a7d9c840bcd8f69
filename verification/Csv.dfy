/** The CSV export of a stream's history, and a reader for section 2 of RFC 4180 that recovers it. */
module Csv {
  import opened Common

  // ----- the printer

  function Doubled(value: string): string {
    if value == "" then ""
    else (if value[0] == '"' then "\"\"" else [value[0]]) + Doubled(value[1..])
  }

  predicate NeedsQuotes(value: string) {
    ',' in value || '"' in value || '\n' in value
  }

  function EscapeCell(value: string): string {
    if NeedsQuotes(value) then "\"" + (Doubled(value) + "\"") else value
  }

  /** Only cells with a comma, a quote or a line feed are put in quotes; the others print as they are. */
  lemma EscapeCellQuotes(value: string)
    ensures (forall i :: 0 <= i < |value| ==> value[i] !in {',', '"', '\n'}) ==> EscapeCell(value) == value
    ensures (exists i :: 0 <= i < |value| && value[i] in {',', '"', '\n'}) ==>
      |EscapeCell(value)| >= 2 && EscapeCell(value)[0] == '"' && EscapeCell(value)[|EscapeCell(value)| - 1] == '"'
  {
    if i :| 0 <= i < |value| && value[i] in {',', '"', '\n'} {
      assert value[i] in value;
    }
  }

  function Join(parts: seq<string>, separator: string): string {
    if parts == [] then ""
    else if |parts| == 1 then parts[0]
    else parts[0] + (separator + Join(parts[1..], separator))
  }

  function Escaped(cells: seq<string>): seq<string> {
    seq(|cells|, i requires 0 <= i < |cells| => EscapeCell(cells[i]))
  }

  function RowText(cells: seq<string>): string {
    Join(Escaped(cells), ",")
  }

  function Decimal(n: nat): string {
    var digit := ["0123456789"[n % 10]];
    if n < 10 then digit else Decimal(n / 10) + digit
  }

  predicate IsDigits(s: string) {
    s == "" || ('0' <= s[|s| - 1] <= '9' && IsDigits(s[..|s| - 1]))
  }

  /** The number that a string of decimal digits stands for. */
  function ReadDecimal(s: string): nat
    requires IsDigits(s)
  {
    if s == "" then 0 else ReadDecimal(s[..|s| - 1]) * 10 + (s[|s| - 1] - '0') as int
  }

  /** A number prints as its digits, without leading zeros. */
  lemma {:induction false} DecimalReadsBack(n: nat)
    ensures IsDigits(Decimal(n)) && ReadDecimal(Decimal(n)) == n
    ensures Decimal(n) != "" && (n > 0 ==> Decimal(n)[0] != '0')
  {
    var digit := ["0123456789"[n % 10]];
    assert digit[0] == '0' + (n % 10) as char;
    if n < 10 {
      assert digit[..0] == "";
    } else {
      DecimalReadsBack(n / 10);
      assert (Decimal(n / 10) + digit)[..|Decimal(n / 10) + digit| - 1] == Decimal(n / 10);
    }
  }

  /** A moment as milliseconds since the epoch and as its ISO text. */
  datatype Stamp = Stamp(millis: int, iso: string)
  datatype TxRecord = TxRecord(stamp: Option<Stamp>, kind: string, amount: Option<string>)
  datatype DateRange = DateRange(from: Option<int>, until: Option<int>)

  const HEADERS: seq<string> := ["date", "stream_id", "employee", "token", "type", "amount"]

  /** Records without a timestamp are always kept. */
  predicate Kept(r: TxRecord, range: Option<DateRange>) {
    range.Some? && r.stamp.Some? ==>
      && (range.value.from.Some? ==> range.value.from.value <= r.stamp.value.millis)
      && (range.value.until.Some? ==> r.stamp.value.millis <= range.value.until.value)
  }

  function Cells(r: TxRecord, streamId: nat, employee: string, token: string): seq<string> {
    [if r.stamp.Some? then r.stamp.value.iso else "", Decimal(streamId), employee, token, r.kind, r.amount.Or("")]
  }

  /** The cells of the kept records, in order. */
  function Table(records: seq<TxRecord>, streamId: nat, employee: string, token: string, range: Option<DateRange>)
    : seq<seq<string>>
  {
    if records == [] then [] else
      var n := |records| - 1;
      Table(records[..n], streamId, employee, token, range)
      + (if Kept(records[n], range) then [Cells(records[n], streamId, employee, token)] else [])
  }

  /** A record falls out of a date range exactly when it has a moment before the start or after the end. */
  lemma KeptIff(r: TxRecord, range: Option<DateRange>)
    ensures !Kept(r, range) <==>
      && range.Some? && r.stamp.Some?
      && (|| (range.value.from.Some? && r.stamp.value.millis < range.value.from.value)
          || (range.value.until.Some? && r.stamp.value.millis > range.value.until.value))
  {
  }

  /** The places of the kept records. */
  function KeptAt(records: seq<TxRecord>, range: Option<DateRange>): (places: seq<nat>)
    ensures forall k :: 0 <= k < |places| ==> places[k] < |records|
  {
    if records == [] then [] else
      var n := |records| - 1;
      KeptAt(records[..n], range) + (if Kept(records[n], range) then [n] else [])
  }

  lemma {:induction false} KeptAtIs(records: seq<TxRecord>, range: Option<DateRange>)
    ensures forall j, k :: 0 <= j < k < |KeptAt(records, range)| ==>
      KeptAt(records, range)[j] < KeptAt(records, range)[k]
    ensures forall i :: 0 <= i < |records| ==> (i in KeptAt(records, range) <==> Kept(records[i], range))
  {
    if records != [] {
      var n := |records| - 1;
      KeptAtIs(records[..n], range);
      assert forall i :: 0 <= i < n ==> records[..n][i] == records[i];
      assert n !in KeptAt(records[..n], range);
    }
  }

  lemma {:induction false} TableCounts(records: seq<TxRecord>, streamId: nat, employee: string, token: string,
                                       range: Option<DateRange>)
    ensures |Table(records, streamId, employee, token, range)| == |KeptAt(records, range)|
  {
    if records != [] {
      TableCounts(records[..|records| - 1], streamId, employee, token, range);
    }
  }

  /** The table has one row per kept record, in order: its moment or nothing, the stream id in decimal, the employee,
      the token, the kind, and the amount or nothing. */
  lemma {:induction false} TableRows(records: seq<TxRecord>, streamId: nat, employee: string, token: string,
                                     range: Option<DateRange>, k: nat)
    requires k < |KeptAt(records, range)|
    ensures |Table(records, streamId, employee, token, range)| == |KeptAt(records, range)|
    ensures var r, row := records[KeptAt(records, range)[k]], Table(records, streamId, employee, token, range)[k];
      && |row| == 6 && row[2] == employee && row[3] == token && row[4] == r.kind
      && row[0] == (if r.stamp.Some? then r.stamp.value.iso else "")
      && row[5] == (if r.amount.Some? then r.amount.value else "")
      && IsDigits(row[1]) && ReadDecimal(row[1]) == streamId
  {
    var n := |records| - 1;
    TableCounts(records, streamId, employee, token, range);
    TableCounts(records[..n], streamId, employee, token, range);
    DecimalReadsBack(streamId);
    if k < |KeptAt(records[..n], range)| {
      TableRows(records[..n], streamId, employee, token, range, k);
    }
  }

  function Lines(rows: seq<seq<string>>): seq<string> {
    seq(|rows|, i requires 0 <= i < |rows| => RowText(rows[i]))
  }

  lemma LinesAppend(rows: seq<seq<string>>, row: seq<string>)
    ensures Lines(rows + [row]) == Lines(rows) + [RowText(row)]
  {
  }

  /** Cells that need no quoting are joined as they are. */
  lemma PlainRow(cells: seq<string>)
    requires forall i :: 0 <= i < |cells| ==> !NeedsQuotes(cells[i])
    ensures RowText(cells) == Join(cells, ",")
  {
    assert Escaped(cells) == cells;
  }

  lemma HeaderText()
    ensures RowText(HEADERS) == Join(HEADERS, ",") && |HEADERS| == 6
  {
    assert !NeedsQuotes("date") && !NeedsQuotes("stream_id") && !NeedsQuotes("employee");
    assert !NeedsQuotes("token") && !NeedsQuotes("type") && !NeedsQuotes("amount");
    PlainRow(HEADERS);
  }

  /** One row of the export, every cell escaped. */
  method Render(r: TxRecord, date: string, streamId: nat, employee: string, token: string) returns (line: string)
    requires date == if r.stamp.Some? then r.stamp.value.iso else ""
    ensures line == RowText(Cells(r, streamId, employee, token))
  {
    var cells := [EscapeCell(date), EscapeCell(Decimal(streamId)), EscapeCell(employee), EscapeCell(token),
                  EscapeCell(r.kind), EscapeCell(r.amount.Or(""))];
    assert cells == Escaped(Cells(r, streamId, employee, token));
    line := Join(cells, ",");
  }

  /** The loop over the records, pushing one line per kept record. */
  method PushRows(header: seq<string>, records: seq<TxRecord>, streamId: nat, employee: string, token: string,
                  range: Option<DateRange>)
    returns (rows: seq<string>)
    ensures rows == header + Lines(Table(records, streamId, employee, token, range))
  {
    rows := header;
    for i := 0 to |records|
      invariant rows == header + Lines(Table(records[..i], streamId, employee, token, range))
    {
      assert records[..i + 1][..i] == records[..i];
      var r := records[i];
      var date := if r.stamp.Some? then r.stamp.value.iso else "";
      if range.Some? && r.stamp.Some? {
        if range.value.from.Some? && r.stamp.value.millis < range.value.from.value { continue; }
        if range.value.until.Some? && r.stamp.value.millis > range.value.until.value { continue; }
      }
      var line := Render(r, date, streamId, employee, token);
      LinesAppend(Table(records[..i], streamId, employee, token, range), Cells(r, streamId, employee, token));
      rows := rows + [line];
    }
    assert records[..|records|] == records;
  }

  // ----- the reader

  predicate AtLineBreak(s: string) {
    |s| >= 2 && s[0] == '\r' && s[1] == '\n'
  }

  /** The end of the text, a comma or a line break follows. */
  predicate AtDelimiter(s: string) {
    s == "" || s[0] == ',' || AtLineBreak(s)
  }

  /** TEXTDATA of the grammar: printable ASCII without the comma and the quote. */
  predicate TextData(c: char) {
    ' ' <= c <= '~' && c != '"' && c != ','
  }

  /** A character, other than a doubled quote, that a cell may hold. A strict reader follows the grammar to the
      letter; a lenient one takes everything as text that is not a delimiter. */
  predicate Permits(c: char, quoted: bool, strict: bool) {
    !strict || TextData(c) || (quoted && c in {',', '\r', '\n'})
  }

  datatype Read<T> = Read(value: T, rest: string)

  function ReadPlain(s: string, strict: bool): (r: Option<Read<string>>)
    ensures r.Some? ==> |r.value.rest| <= |s|
  {
    if AtDelimiter(s) then Some(Read("", s))
    else if !Permits(s[0], false, strict) then None
    else
      var tail :- ReadPlain(s[1..], strict);
      Some(Read([s[0]] + tail.value, tail.rest))
  }

  /** The inside of a quoted cell, up to its closing quote. */
  function ReadQuoted(s: string, strict: bool): (r: Option<Read<string>>)
    ensures r.Some? ==> |r.value.rest| < |s|
  {
    if s == "" then None
    else if s[0] != '"' then
      if !Permits(s[0], true, strict) then None else
        var tail :- ReadQuoted(s[1..], strict);
        Some(Read([s[0]] + tail.value, tail.rest))
    else if |s| >= 2 && s[1] == '"' then
      var tail :- ReadQuoted(s[2..], strict);
      Some(Read(['"'] + tail.value, tail.rest))
    else Some(Read("", s[1..]))
  }

  function ReadCell(s: string, strict: bool): (r: Option<Read<string>>)
    ensures r.Some? ==> |r.value.rest| <= |s|
  {
    if s != "" && s[0] == '"' then
      var quoted :- ReadQuoted(s[1..], strict);
      if AtDelimiter(quoted.rest) then Some(quoted) else None
    else ReadPlain(s, strict)
  }

  function ReadRow(s: string, strict: bool): (r: Option<Read<seq<string>>>)
    ensures r.Some? ==> |r.value.rest| <= |s|
    decreases |s|
  {
    var cell :- ReadCell(s, strict);
    if cell.rest != "" && cell.rest[0] == ',' then
      var more :- ReadRow(cell.rest[1..], strict);
      Some(Read([cell.value] + more.value, more.rest))
    else Some(Read([cell.value], cell.rest))
  }

  /** All records; the last one may or may not have an ending line break. */
  function ReadAll(s: string, strict: bool): Option<seq<seq<string>>>
    decreases |s|
  {
    var row :- ReadRow(s, strict);
    if row.rest == "" || row.rest == "\r\n" then Some([row.value])
    else if AtLineBreak(row.rest) then
      var more :- ReadAll(row.rest[2..], strict);
      Some([row.value] + more)
    else None
  }

  // ----- the round trip

  predicate AllPermitted(value: string, quoted: bool) {
    value == "" ||
    (&& ((quoted && value[0] == '"') || Permits(value[0], quoted, true))
     && AllPermitted(value[1..], quoted))
  }

  /** The printed cell follows the grammar. */
  predicate Conforms(value: string) {
    AllPermitted(value, NeedsQuotes(value))
  }

  predicate RowConforms(cells: seq<string>) {
    forall i :: 0 <= i < |cells| ==> Conforms(cells[i])
  }

  predicate TableConforms(rows: seq<seq<string>>) {
    forall i :: 0 <= i < |rows| ==> RowConforms(rows[i])
  }

  lemma {:induction false} PermittedAre(value: string, quoted: bool)
    ensures AllPermitted(value, quoted) <==>
      forall i :: 0 <= i < |value| ==> (quoted && value[i] == '"') || Permits(value[i], quoted, true)
  {
    if value != "" {
      PermittedAre(value[1..], quoted);
      assert forall i :: 1 <= i < |value| ==> value[i] == value[1..][i - 1];
    }
  }

  /** Of printable ASCII and line-break characters, a cell conforms exactly when it is quoted or has no carriage
      return: the printer leaves a carriage return on its own unquoted. */
  lemma PrintableConformsIff(value: string)
    requires forall i :: 0 <= i < |value| ==> ' ' <= value[i] <= '~' || value[i] in {'\r', '\n'}
    ensures Conforms(value) <==> NeedsQuotes(value) || '\r' !in value
  {
    PermittedAre(value, NeedsQuotes(value));
    if !NeedsQuotes(value) {
      assert forall i :: 0 <= i < |value| ==> value[i] in value;
    }
  }

  lemma {:induction false} PlainRoundTrip(value: string, rest: string, strict: bool)
    requires !NeedsQuotes(value) && AtDelimiter(rest)
    ensures ReadPlain(value + rest, strict)
         == if strict && !AllPermitted(value, false) then None else Some(Read(value, rest))
  {
    if value == "" {
      assert value + rest == rest;
    } else {
      var text := value + rest;
      assert text[0] == value[0] && text[1..] == value[1..] + rest && [value[0]] + value[1..] == value;
      assert |text| >= 2 ==> text[1] == if |value| > 1 then value[1] else rest[0];
      PlainRoundTrip(value[1..], rest, strict);
    }
  }

  /** Reading one printed character of a quoted cell. */
  lemma QuotedStep(c: char, tail: string, strict: bool)
    ensures ReadQuoted((if c == '"' then "\"\"" else [c]) + tail, strict) ==
      if c != '"' && !Permits(c, true, strict) then None
      else
        match ReadQuoted(tail, strict)
        case Some(r) => Some(Read([c] + r.value, r.rest))
        case None => None
  {
    if c == '"' {
      assert ("\"\"" + tail)[2..] == tail;
    } else {
      assert ([c] + tail)[1..] == tail;
    }
  }

  lemma DoubledSplits(value: string, rest: string)
    requires value != ""
    ensures Doubled(value) + rest == (if value[0] == '"' then "\"\"" else [value[0]]) + (Doubled(value[1..]) + rest)
  {
  }

  lemma FirstAndRest<T>(xs: seq<T>)
    requires xs != []
    ensures [xs[0]] + xs[1..] == xs
    ensures |xs| == 1 ==> xs == [xs[0]]
  {
  }

  lemma {:induction false} QuotedRoundTrip(value: string, rest: string, strict: bool)
    requires AtDelimiter(rest)
    ensures ReadQuoted(Doubled(value) + ("\"" + rest), strict)
         == if strict && !AllPermitted(value, true) then None else Some(Read(value, rest))
  {
    if value == "" {
      assert Doubled(value) + ("\"" + rest) == "\"" + rest && ("\"" + rest)[1..] == rest;
    } else {
      DoubledSplits(value, "\"" + rest);
      QuotedStep(value[0], Doubled(value[1..]) + ("\"" + rest), strict);
      QuotedRoundTrip(value[1..], rest, strict);
      FirstAndRest(value);
    }
  }

  lemma PlainCell(value: string, rest: string, strict: bool)
    requires !NeedsQuotes(value) && AtDelimiter(rest)
    ensures ReadCell(value + rest, strict)
         == if strict && !AllPermitted(value, false) then None else Some(Read(value, rest))
  {
    PlainRoundTrip(value, rest, strict);
    assert value != "" ==> (value + rest)[0] == value[0] && value[0] in value;
  }

  lemma QuotedCell(value: string, rest: string, strict: bool)
    requires AtDelimiter(rest)
    ensures ReadCell("\"" + (Doubled(value) + ("\"" + rest)), strict)
         == if strict && !AllPermitted(value, true) then None else Some(Read(value, rest))
  {
    QuotedRoundTrip(value, rest, strict);
    assert ("\"" + (Doubled(value) + ("\"" + rest)))[1..] == Doubled(value) + ("\"" + rest);
  }

  lemma Requoted(inside: string, rest: string)
    ensures ("\"" + (inside + "\"")) + rest == "\"" + (inside + ("\"" + rest))
  {
  }

  lemma CellRoundTrip(value: string, rest: string, strict: bool)
    requires AtDelimiter(rest)
    ensures ReadCell(EscapeCell(value) + rest, strict)
         == if strict && !Conforms(value) then None else Some(Read(value, rest))
  {
    if NeedsQuotes(value) {
      QuotedCell(value, rest, strict);
      Requoted(Doubled(value), rest);
    } else {
      PlainCell(value, rest, strict);
    }
  }

  /** Reading a cell and then the rest of the row. */
  lemma RowStep(text: string, cell: string, tail: string, strict: bool)
    requires ReadCell(text, strict) == Some(Read(cell, "," + tail))
    ensures ReadRow(text, strict) ==
      match ReadRow(tail, strict)
      case Some(more) => Some(Read([cell] + more.value, more.rest))
      case None => None
  {
    assert ("," + tail)[1..] == tail;
  }

  lemma RowTextSplits(cells: seq<string>, rest: string)
    requires |cells| >= 2
    ensures RowText(cells) + rest == EscapeCell(cells[0]) + ("," + (RowText(cells[1..]) + rest))
  {
    assert Escaped(cells)[1..] == Escaped(cells[1..]);
  }

  lemma RowConformsFirst(cells: seq<string>)
    requires cells != []
    ensures RowConforms(cells) <==> Conforms(cells[0]) && RowConforms(cells[1..])
  {
    assert forall i :: 1 <= i < |cells| ==> cells[i] == cells[1..][i - 1];
  }

  lemma {:induction false} RowRoundTrip(cells: seq<string>, rest: string, strict: bool)
    requires cells != [] && (rest == "" || AtLineBreak(rest))
    ensures ReadRow(RowText(cells) + rest, strict)
         == if strict && !RowConforms(cells) then None else Some(Read(cells, rest))
    decreases |cells|
  {
    FirstAndRest(cells);
    RowConformsFirst(cells);
    if |cells| == 1 {
      CellRoundTrip(cells[0], rest, strict);
    } else {
      var tail := RowText(cells[1..]) + rest;
      RowTextSplits(cells, rest);
      CellRoundTrip(cells[0], "," + tail, strict);
      if !strict || Conforms(cells[0]) {
        RowStep(RowText(cells) + rest, cells[0], tail, strict);
        RowRoundTrip(cells[1..], rest, strict);
      }
    }
  }

  lemma BreakThenTail(tail: string)
    ensures AtLineBreak("\r\n" + tail) && ("\r\n" + tail)[2..] == tail
    ensures tail != "" ==> "\r\n" + tail != "" && "\r\n" + tail != "\r\n"
  {
    assert |"\r\n" + tail| == 2 + |tail|;
  }

  /** Reading a row that a line break and the rest of the table follow. */
  lemma TableStep(text: string, row: Read<seq<string>>, strict: bool)
    requires ReadRow(text, strict) == Some(row) && AtLineBreak(row.rest) && row.rest != "\r\n"
    ensures ReadAll(text, strict) ==
      match ReadAll(row.rest[2..], strict)
      case Some(more) => Some([row.value] + more)
      case None => None
  {
  }

  /** The text of a table is the text of its first row, then that of the others. */
  lemma TableTextSplits(rows: seq<seq<string>>)
    requires rows != []
    ensures |rows| == 1 ==> Join(Lines(rows), "\r\n") == RowText(rows[0])
    ensures |rows| >= 2 ==>
      Join(Lines(rows), "\r\n") == RowText(rows[0]) + ("\r\n" + Join(Lines(rows[1..]), "\r\n"))
  {
    assert Lines(rows)[1..] == Lines(rows[1..]);
  }

  /** Reading the last row of a table. */
  lemma LastRow(row: seq<string>, strict: bool)
    requires row != []
    ensures ReadAll(RowText(row), strict) == if strict && !RowConforms(row) then None else Some([row])
  {
    RowRoundTrip(row, "", strict);
    assert RowText(row) + "" == RowText(row);
  }

  /** Reading a row that other rows follow. */
  lemma FirstRow(row: seq<string>, tail: string, strict: bool)
    requires row != [] && tail != ""
    ensures ReadAll(RowText(row) + ("\r\n" + tail), strict) ==
      if strict && !RowConforms(row) then None
      else
        match ReadAll(tail, strict)
        case Some(more) => Some([row] + more)
        case None => None
  {
    BreakThenTail(tail);
    RowRoundTrip(row, "\r\n" + tail, strict);
    if !strict || RowConforms(row) {
      TableStep(RowText(row) + ("\r\n" + tail), Read(row, "\r\n" + tail), strict);
    }
  }

  lemma TableConformsFirst(rows: seq<seq<string>>)
    requires rows != []
    ensures TableConforms(rows) <==> RowConforms(rows[0]) && TableConforms(rows[1..])
  {
    assert forall i :: 1 <= i < |rows| ==> rows[i] == rows[1..][i - 1];
  }

  /** The text of a table, row by row. */
  function TableText(rows: seq<seq<string>>): string
    requires rows != []
  {
    if |rows| == 1 then RowText(rows[0]) else RowText(rows[0]) + ("\r\n" + TableText(rows[1..]))
  }

  lemma {:induction false} TableTextIsJoined(rows: seq<seq<string>>)
    requires rows != []
    ensures Join(Lines(rows), "\r\n") == TableText(rows)
  {
    TableTextSplits(rows);
    if |rows| > 1 {
      TableTextIsJoined(rows[1..]);
    }
  }

  lemma {:induction false} TableTextRoundTrip(rows: seq<seq<string>>, strict: bool)
    requires rows != [] && forall i :: 0 <= i < |rows| ==> |rows[i]| >= 2
    ensures TableText(rows) != ""
    ensures ReadAll(TableText(rows), strict) == if strict && !TableConforms(rows) then None else Some(rows)
  {
    RowTextSplits(rows[0], "");
    FirstAndRest(rows);
    TableConformsFirst(rows);
    if |rows| == 1 {
      LastRow(rows[0], strict);
    } else {
      TableTextRoundTrip(rows[1..], strict);
      FirstRow(rows[0], TableText(rows[1..]), strict);
    }
  }

  /** Every table whose rows have at least two cells survives printing and lenient reading; a strict reader gets
      it back exactly when every printed cell follows the grammar, and otherwise rejects the text. */
  lemma AllRoundTrip(rows: seq<seq<string>>, strict: bool)
    requires rows != [] && forall i :: 0 <= i < |rows| ==> |rows[i]| >= 2
    ensures ReadAll(Join(Lines(rows), "\r\n"), strict)
         == if strict && !TableConforms(rows) then None else Some(rows)
  {
    TableTextIsJoined(rows);
    TableTextRoundTrip(rows, strict);
  }

  // ----- the export

  predicate Lettered(value: string) {
    forall i :: 0 <= i < |value| ==> 'a' <= value[i] <= 'z' || value[i] == '_'
  }

  lemma LetteredConforms(value: string)
    requires Lettered(value)
    ensures Conforms(value)
  {
    PermittedAre(value, NeedsQuotes(value));
  }

  lemma HeaderConforms()
    ensures RowConforms(HEADERS)
  {
    assert Lettered("date") && Lettered("stream_id") && Lettered("employee");
    assert Lettered("token") && Lettered("type") && Lettered("amount");
    forall i | 0 <= i < |HEADERS|
      ensures Conforms(HEADERS[i])
    {
      LetteredConforms(HEADERS[i]);
    }
  }

  lemma WithHeader(header: seq<string>, table: seq<seq<string>>, strict: bool)
    requires |header| >= 2 && forall row :: row in table ==> |row| >= 2
    ensures ReadAll(Join([RowText(header)] + Lines(table), "\r\n"), strict)
         == if strict && !(RowConforms(header) && TableConforms(table)) then None else Some([header] + table)
  {
    assert Lines([header] + table) == [RowText(header)] + Lines(table);
    AllRoundTrip([header] + table, strict);
    TableConformsFirst([header] + table);
    assert ([header] + table)[1..] == table;
  }

  lemma {:induction false} TableIsWide(records: seq<TxRecord>, streamId: nat, employee: string, token: string,
                                       range: Option<DateRange>)
    ensures forall row :: row in Table(records, streamId, employee, token, range) ==> |row| == 6
  {
    if records != [] {
      TableIsWide(records[..|records| - 1], streamId, employee, token, range);
    }
  }

  /** `buildCsv`: reading the text back yields the header and exactly the six cells of each kept record; a reader
      that follows the grammar to the letter does so exactly when every cell conforms, and otherwise rejects it. */
  method BuildCsv(records: seq<TxRecord>, streamId: nat, employee: string, token: string, range: Option<DateRange>)
    returns (csv: string)
    ensures ReadAll(csv, false) == Some([HEADERS] + Table(records, streamId, employee, token, range))
    ensures ReadAll(csv, true) ==
      if TableConforms(Table(records, streamId, employee, token, range))
      then Some([HEADERS] + Table(records, streamId, employee, token, range))
      else None
  {
    var rows := PushRows([Join(HEADERS, ",")], records, streamId, employee, token, range);
    HeaderText();
    HeaderConforms();
    TableIsWide(records, streamId, employee, token, range);
    WithHeader(HEADERS, Table(records, streamId, employee, token, range), false);
    WithHeader(HEADERS, Table(records, streamId, employee, token, range), true);
    csv := Join(rows, "\r\n");
  }
}
