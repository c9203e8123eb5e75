/** CSV export: a cell encoder proved against a reader written from section 2 of RFC 4180. */
module Csv {
  import opened Common

  const QUOTE: char := '\"'

  // The encoder

  predicate StartsFormula(s: string)
  {
    s != "" && s[0] in {'=', '+', '-', '@', '\t', '\r'}
  }

  predicate Special(c: char)
  {
    c == QUOTE || c == ',' || c == '\n' || c == '\r'
  }

  function Doubled(s: string): string
  {
    if s == "" then "" else (if s[0] == QUOTE then [QUOTE, QUOTE] else [s[0]]) + Doubled(s[1..])
  }

  /** A value a spreadsheet would run as a formula gets an apostrophe in front. */
  function Neutral(value: string): string
  {
    if StartsFormula(value) then "'" + value else value
  }

  predicate NeedsQuotes(s: string)
  {
    exists c :: c in s && Special(c)
  }

  function CsvCell(value: string): string
  {
    var s := Neutral(value);
    if NeedsQuotes(s) then [QUOTE] + Doubled(s) + [QUOTE] else s
  }

  function CsvRow(cells: seq<string>): string
    requires cells != []
  {
    if |cells| == 1 then CsvCell(cells[0]) else CsvCell(cells[0]) + "," + CsvRow(cells[1..])
  }

  /** The export: the header and the lines, joined by line feeds. */
  function CsvTable(rows: seq<seq<string>>): string
    requires rows != [] && forall i :: 0 <= i < |rows| ==> |rows[i]| > 0
  {
    if |rows| == 1 then CsvRow(rows[0]) else CsvRow(rows[0]) + "\n" + CsvTable(rows[1..])
  }

  // The reader

  /** The length of the line break `s` begins with: CRLF, or the bare line feed the export writes. */
  function Break(s: string): (n: nat)
    ensures n <= |s|
  {
    if s != "" && s[0] == '\n' then 1 else if |s| > 1 && s[0] == '\r' && s[1] == '\n' then 2 else 0
  }

  /** Inside quotes: two quotes stand for one, and a single one ends the field. */
  function ReadQuoted(s: string): Option<(string, string)>
  {
    if s == "" then None
    else if s[0] != QUOTE then
      match ReadQuoted(s[1..])
      case None => None
      case Some((field, rest)) => Some(([s[0]] + field, rest))
    else if |s| > 1 && s[1] == QUOTE then
      match ReadQuoted(s[2..])
      case None => None
      case Some((field, rest)) => Some(([QUOTE] + field, rest))
    else Some(("", s[1..]))
  }

  /** Outside quotes: everything up to a comma or a line break; a quote or a lone carriage return is not allowed. */
  function ReadPlain(s: string): Option<(string, string)>
  {
    if s == "" || s[0] == ',' || Break(s) > 0 then Some(("", s))
    else if Special(s[0]) then None
    else
      match ReadPlain(s[1..])
      case None => None
      case Some((field, rest)) => Some(([s[0]] + field, rest))
  }

  function ReadField(s: string): Option<(string, string)>
  {
    if s != "" && s[0] == QUOTE then ReadQuoted(s[1..]) else ReadPlain(s)
  }

  lemma ReadQuotedShrinks(s: string)
    ensures ReadQuoted(s).Some? ==> |ReadQuoted(s).value.1| < |s|
  {
  }

  lemma ReadPlainShrinks(s: string)
    ensures ReadPlain(s).Some? ==> |ReadPlain(s).value.1| <= |s|
  {
  }

  /** One record: fields separated by commas, up to a line break or the end. */
  function ReadRecord(s: string): Option<(seq<string>, string)>
    decreases |s|
  {
    ReadQuotedShrinks(if s != "" then s[1..] else "");
    ReadPlainShrinks(s);
    match ReadField(s)
    case None => None
    case Some((field, rest)) =>
      if rest == "" || Break(rest) > 0 then Some(([field], rest))
      else if rest[0] != ',' then None
      else
        match ReadRecord(rest[1..])
        case None => None
        case Some((fields, rest')) => Some(([field] + fields, rest'))
  }

  lemma {:induction false} ReadRecordShrinks(s: string)
    ensures ReadRecord(s).Some? ==> |ReadRecord(s).value.1| <= |s|
    ensures ReadRecord(s).Some? ==> ReadRecord(s).value.1 == "" || Break(ReadRecord(s).value.1) > 0
    decreases |s|
  {
    ReadQuotedShrinks(if s != "" then s[1..] else "");
    ReadPlainShrinks(s);
    var field := ReadField(s);
    if field.Some? && field.value.1 != "" && field.value.1[0] == ',' { ReadRecordShrinks(field.value.1[1..]); }
  }

  function ReadRow(s: string): Option<seq<string>>
  {
    match ReadRecord(s)
    case None => None
    case Some((fields, rest)) => if rest == "" then Some(fields) else None
  }

  /** A file whose last record has no line break of its own. */
  function ReadTable(s: string): Option<seq<seq<string>>>
    decreases |s|
  {
    ReadRecordShrinks(s);
    match ReadRecord(s)
    case None => None
    case Some((fields, rest)) =>
      if rest == "" then Some([fields])
      else
        match ReadTable(rest[Break(rest)..])
        case None => None
        case Some(rows) => Some([fields] + rows)
  }

  /** A file whose last record may end with a line break: what follows the last break, if nothing, is no record. */
  function ReadFile(s: string): Option<seq<seq<string>>>
    decreases |s|
  {
    ReadRecordShrinks(s);
    match ReadRecord(s)
    case None => None
    case Some((fields, rest)) =>
      if rest == "" || rest[Break(rest)..] == "" then Some([fields])
      else
        match ReadFile(rest[Break(rest)..])
        case None => None
        case Some(rows) => Some([fields] + rows)
  }

  // Round trips

  /** What may follow a field. */
  predicate Ends(t: string)
  {
    t == "" || t[0] == ',' || t[0] == '\n'
  }

  lemma {:induction false} QuotedRoundTrip(s: string, t: string)
    requires t == "" || t[0] != QUOTE
    ensures ReadQuoted(Doubled(s) + [QUOTE] + t) == Some((s, t))
  {
    hide Doubled, ReadQuoted;
    DoubledHead(s, t);
    if s == "" {
      QuoteEnds(t);
    } else {
      QuotedRoundTrip(s[1..], t);
      QuotedHead(s[0], Doubled(s[1..]) + [QUOTE] + t);
      assert s == [s[0]] + s[1..];
    }
  }

  /** A character as it stands between quotes. */
  function Escaped(c: char): string
  {
    if c == QUOTE then [QUOTE, QUOTE] else [c]
  }

  lemma DoubledHead(s: string, t: string)
    ensures Doubled(s) + [QUOTE] + t
         == if s == "" then [QUOTE] + t else Escaped(s[0]) + (Doubled(s[1..]) + [QUOTE] + t)
  {
  }

  lemma QuoteEnds(t: string)
    requires t == "" || t[0] != QUOTE
    ensures ReadQuoted([QUOTE] + t) == Some(("", t))
  {
    assert ([QUOTE] + t)[1..] == t;
  }

  lemma QuotedHead(c: char, tail: string)
    requires ReadQuoted(tail).Some?
    ensures ReadQuoted(Escaped(c) + tail) == Some(([c] + ReadQuoted(tail).value.0, ReadQuoted(tail).value.1))
  {
    assert (Escaped(c) + tail)[|Escaped(c)|..] == tail;
  }

  lemma {:induction false} PlainRoundTrip(s: string, t: string)
    requires Ends(t) && forall c :: c in s ==> !Special(c)
    ensures ReadPlain(s + t) == Some((s, t))
  {
    if s == "" {
      assert s + t == t;
    } else {
      assert s[0] in s;
      forall c | c in s[1..] ensures !Special(c) { assert c in s; }
      PlainRoundTrip(s[1..], t);
      assert (s + t)[1..] == s[1..] + t && s == [s[0]] + s[1..];
    }
  }

  lemma CellRoundTrip(value: string, t: string)
    requires Ends(t)
    ensures ReadField(CsvCell(value) + t) == Some((Neutral(value), t))
    ensures (forall c :: c in value ==> c != '\"' && c != ',' && c != '\n' && c != '\r') ==>
              CsvCell(value) == if Runs(value) then "'" + value else value
  {
    PlainPrints(value);
    hide Doubled, ReadQuoted, ReadPlain, Neutral;
    var s := Neutral(value);
    if NeedsQuotes(s) {
      QuotedRoundTrip(s, t);
      assert CsvCell(value) + t == [QUOTE] + (Doubled(s) + [QUOTE] + t);
      assert (CsvCell(value) + t)[1..] == Doubled(s) + [QUOTE] + t;
    } else {
      PlainRoundTrip(s, t);
      assert s != "" ==> s[0] in s;
      assert s + t != "" ==> (s + t)[0] == if s == "" then t[0] else s[0];
    }
  }

  /** A cell with no quote, comma or line break is printed without quotes. */
  lemma PlainPrints(value: string)
    ensures (forall c :: c in value ==> c != '\"' && c != ',' && c != '\n' && c != '\r') ==>
              CsvCell(value) == if Runs(value) then "'" + value else value
  {
  }

  /** A spreadsheet would run the cell as a formula, maybe after stripping a leading tab or carriage return. */
  predicate Runs(cell: string)
  {
    && |cell| > 0
    && ( || cell[0] == '=' || cell[0] == '+' || cell[0] == '-' || cell[0] == '@'
         || cell[0] == '\t' || cell[0] == '\r')
  }

  function NeutralRow(cells: seq<string>): (out: seq<string>)
    ensures |out| == |cells|
    ensures forall i :: 0 <= i < |cells| ==> out[i] == Neutral(cells[i])
  {
    if cells == [] then [] else [Neutral(cells[0])] + NeutralRow(cells[1..])
  }

  lemma {:induction false} RecordRoundTrip(cells: seq<string>, t: string)
    requires cells != [] && (t == "" || t[0] == '\n')
    ensures ReadRecord(CsvRow(cells) + t) == Some((NeutralRow(cells), t))
  {
    hide CsvCell, ReadField, Neutral;
    if |cells| == 1 {
      CellRoundTrip(cells[0], t);
      assert NeutralRow(cells) == [Neutral(cells[0])];
    } else {
      var tail := CsvRow(cells[1..]) + t;
      RecordRoundTrip(cells[1..], t);
      CellRoundTrip(cells[0], "," + tail);
      assert CsvRow(cells) + t == CsvCell(cells[0]) + ("," + tail);
      assert ("," + tail)[1..] == tail;
    }
  }

  /** Any non-empty row reads back as its cells, each neutralized. */
  lemma RowRoundTrip(cells: seq<string>)
    requires cells != []
    ensures ReadRow(CsvRow(cells)) == Some(NeutralRow(cells))
    ensures |NeutralRow(cells)| == |cells|
    ensures forall i :: 0 <= i < |cells| ==> NeutralRow(cells)[i] == if Runs(cells[i]) then "'" + cells[i] else cells[i]
  {
    RecordRoundTrip(cells, "");
    assert CsvRow(cells) + "" == CsvRow(cells);
  }

  function NeutralTable(rows: seq<seq<string>>): (out: seq<seq<string>>)
    ensures |out| == |rows|
    ensures forall i :: 0 <= i < |rows| ==> out[i] == NeutralRow(rows[i])
  {
    if rows == [] then [] else [NeutralRow(rows[0])] + NeutralTable(rows[1..])
  }

  /** Cell by cell, the read rows are the written ones, with an apostrophe in front of what a spreadsheet would run. */
  predicate Neutralized(rows: seq<seq<string>>, read: seq<seq<string>>)
  {
    && |read| == |rows|
    && (forall i :: 0 <= i < |rows| ==> |read[i]| == |rows[i]|)
    && forall i, j :: 0 <= i < |rows| && 0 <= j < |rows[i]| ==>
         read[i][j] == if Runs(rows[i][j]) then "'" + rows[i][j] else rows[i][j]
  }

  lemma NeutralSpelledOut(rows: seq<seq<string>>)
    ensures Neutralized(rows, NeutralTable(rows))
  {
  }

  /** A whole export reads back row for row, line breaks inside cells included. */
  lemma {:induction false} TableRoundTrip(rows: seq<seq<string>>)
    requires rows != [] && forall i :: 0 <= i < |rows| ==> |rows[i]| > 0
    ensures ReadTable(CsvTable(rows)) == Some(NeutralTable(rows))
    ensures Neutralized(rows, NeutralTable(rows))
  {
    NeutralSpelledOut(rows);
    hide Neutralized;
    hide CsvRow, ReadRecord, NeutralRow;
    if |rows| == 1 {
      RecordRoundTrip(rows[0], "");
      assert CsvRow(rows[0]) + "" == CsvTable(rows);
      assert NeutralTable(rows) == [NeutralRow(rows[0])];
    } else {
      var tail := CsvTable(rows[1..]);
      TableRoundTrip(rows[1..]);
      RecordRoundTrip(rows[0], "\n" + tail);
      assert CsvTable(rows) == CsvRow(rows[0]) + ("\n" + tail);
      assert ("\n" + tail)[1..] == tail;
    }
  }

  // A line break at the end

  /** A row that prints as nothing: one empty cell. */
  lemma EmptyLine(cells: seq<string>)
    requires cells != []
    ensures CsvRow(cells) == "" <==> cells == [""]
  {
    if |cells| == 1 { assert cells == [cells[0]]; }
  }

  /**
   * What a reader that takes a final line break finds: a last row of one empty cell is taken for the
   * end of the file.
   */
  function Found(rows: seq<seq<string>>): (found: seq<seq<string>>)
    requires rows != []
    ensures found != [] && found <= rows
  {
    if |rows| > 1 && rows[|rows| - 1] == [""] then rows[..|rows| - 1] else rows
  }

  lemma {:induction false} FileReadsFound(rows: seq<seq<string>>)
    requires rows != [] && forall i :: 0 <= i < |rows| ==> |rows[i]| > 0
    ensures ReadFile(CsvTable(rows)) == Some(NeutralTable(Found(rows)))
  {
    hide CsvRow, ReadRecord, NeutralRow;
    if |rows| == 1 {
      RecordRoundTrip(rows[0], "");
      assert CsvRow(rows[0]) + "" == CsvTable(rows);
      assert NeutralTable(rows) == [NeutralRow(rows[0])];
    } else {
      var tail := CsvTable(rows[1..]);
      RecordRoundTrip(rows[0], "\n" + tail);
      assert CsvTable(rows) == CsvRow(rows[0]) + ("\n" + tail);
      assert ("\n" + tail)[1..] == tail;
      EmptyTail(rows[1..]);
      if tail == "" {
        assert rows[..1] == [rows[0]] && Found(rows) == [rows[0]];
        assert NeutralTable([rows[0]]) == [NeutralRow(rows[0])];
      } else {
        FileReadsFound(rows[1..]);
        assert Found(rows) == [rows[0]] + Found(rows[1..]);
        assert Found(rows)[1..] == Found(rows[1..]);
      }
    }
  }

  lemma EmptyTail(rows: seq<seq<string>>)
    requires rows != [] && forall i :: 0 <= i < |rows| ==> |rows[i]| > 0
    ensures CsvTable(rows) == "" <==> rows == [[""]]
  {
    EmptyLine(rows[0]);
    if |rows| == 1 { assert rows == [rows[0]]; }
  }

  /**
   * With that reader an export reads back whole if and only if it is one row long or its last row is
   * not one empty cell.
   */
  lemma FileRoundTripExactly(rows: seq<seq<string>>)
    requires rows != [] && forall i :: 0 <= i < |rows| ==> |rows[i]| > 0
    ensures ReadFile(CsvTable(rows)) == Some(NeutralTable(rows)) <==> |rows| == 1 || rows[|rows| - 1] != [""]
  {
    FileReadsFound(rows);
    assert |NeutralTable(Found(rows))| == |Found(rows)|;
  }

  /** The smallest export that does not: a header and one empty cell. */
  lemma LastEmptyCellIsLost()
    ensures CsvTable([["a"], [""]]) == "a\n"
    ensures ReadFile("a\n") == Some([["a"]]) && ReadTable("a\n") == Some([["a"], [""]])
  {
    hide ReadFile, ReadTable, ReadRecord;
    var rows := [["a"], [""]];
    assert rows[1..] == [[""]] && rows[..1] == [["a"]];
    PlainCells();
    assert CsvTable(rows) == "a" + "\n" + "";
    FileReadsFound(rows);
    TableRoundTrip(rows);
    assert NeutralTable([["a"]]) == [["a"]] && NeutralTable(rows) == rows;
  }

  lemma PlainCells()
    ensures CsvRow(["a"]) == "a" && CsvRow([""]) == "" && NeutralRow(["a"]) == ["a"] && NeutralRow([""]) == [""]
  {
    assert "a"[0] == 'a' && !NeedsQuotes("a");
  }

  /** No cell that a reader of either kind decodes from an export begins with a formula character. */
  lemma NoDecodedFormula(rows: seq<seq<string>>)
    requires rows != [] && (forall k :: 0 <= k < |rows| ==> |rows[k]| > 0)
    ensures forall read :: read in {ReadTable(CsvTable(rows)), ReadFile(CsvTable(rows))} ==>
              read.Some? && Harmless(read.value)
  {
    TableRoundTrip(rows);
    FileReadsFound(rows);
    NeutralIsHarmless(rows);
    NeutralIsHarmless(Found(rows));
  }

  predicate Harmless(rows: seq<seq<string>>)
  {
    forall i, j :: 0 <= i < |rows| && 0 <= j < |rows[i]| ==> !Runs(rows[i][j])
  }

  lemma NeutralIsHarmless(rows: seq<seq<string>>)
    ensures Harmless(NeutralTable(rows))
  {
    forall i, j | 0 <= i < |rows| && 0 <= j < |rows[i]| ensures !Runs(NeutralTable(rows)[i][j]) {
      assert NeutralTable(rows)[i][j] == Neutral(rows[i][j]);
    }
  }
}
