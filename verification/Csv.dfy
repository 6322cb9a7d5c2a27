// The password export's reader, and the tables it gives back (src/vault.js parseCsv).
module Csv {

  // ── what a text says: each reader takes the rest of the text and leaves what follows ──

  predicate Ends(c: char) {
    c == ',' || c == '\r' || c == '\n'
  }

  /** Up to a comma or a line break. */
  function Bare(t: string): (f: (string, string))
    ensures |f.1| <= |t| && (f.1 != "" ==> Ends(f.1[0]))
    ensures t != "" && !Ends(t[0]) ==> |f.1| < |t|
  {
    if t == "" || Ends(t[0]) then ("", t) else var f := Bare(t[1..]); ([t[0]] + f.0, f.1)
  }

  /** Up to the closing quote, or the end; a doubled quote stands for one. */
  function Quoted(t: string): (f: (string, string))
    ensures |f.1| <= |t|
    decreases |t|
  {
    if t == "" then ("", "")
    else if t[0] != '"' then var f := Quoted(t[1..]); ([t[0]] + f.0, f.1)
    else if |t| > 1 && t[1] == '"' then var f := Quoted(t[2..]); ("\"" + f.0, f.1)
    else ("", t[1..])
  }

  function Field(t: string): (f: (string, string))
    ensures |f.1| <= |t| && (t != "" && !Ends(t[0]) ==> |f.1| < |t|)
    ensures f.1 != "" && |f.1| == |t| ==> Ends(f.1[0])
  {
    if t != "" && t[0] == '"' then Quoted(t[1..]) else Bare(t)
  }

  function SkipReturn(t: string): (r: string)
    ensures |r| <= |t|
  {
    if t != "" && t[0] == '\r' then t[1..] else t
  }

  /** A row: every step takes something off the text. */
  function Row(t: string): (r: (seq<string>, string))
    ensures t != "" ==> r.0 != [] && |r.1| < |t|
    ensures t == "" ==> r == ([], "")
    decreases |t|
  {
    if t == "" then ([], "")
    else
      var f := Field(t);
      if f.1 != "" && f.1[0] == ',' then var r := Row(f.1[1..]); ([f.0] + r.0, r.1)
      else
        var u := SkipReturn(f.1);
        if u != "" && u[0] == '\n' then ([f.0], u[1..])
        else if u == "" then ([f.0], "")
        else var r := Row(u); ([f.0] + r.0, r.1)
  }

  type Record = map<string, string>

  /** Assigning a string to this property of an object does nothing. */
  const PROTO := "__proto__"

  /** Column j holds field j, or nothing when the row is short; of two columns of one name the later counts. */
  function RecordOf(header: seq<string>, row: seq<string>): (o: Record)
    ensures forall c :: c in o <==> c in header && c != PROTO
  {
    if header == [] then map[]
    else
      var n := |header| - 1;
      if header[n] == PROTO then RecordOf(header[..n], row)
      else RecordOf(header[..n], row)[header[n] := if n < |row| then row[n] else ""]
  }

  function Records(header: seq<string>, t: string): seq<Record>
    decreases |t|
  {
    if t == "" then []
    else
      var r := Row(t);
      (if r.0 == [""] then [] else [RecordOf(header, r.0)]) + Records(header, r.1)
  }

  function Parsed(t: string): seq<Record> {
    Records(Row(t).0, Row(t).1)
  }

  // ── the reader ──

  method ReadField(text: string, start: nat) returns (s: string, i: nat)
    requires start <= |text|
    ensures start <= i <= |text| && (s, text[i..]) == Field(text[start..])
  {
    i := start;
    s := "";
    var n := |text|;
    if i < n && text[i] == '"' {
      i := i + 1;
      s, i := ReadQuoted(text, i);
    } else {
      assert s + Bare(text[i..]).0 == Bare(text[i..]).0;
      while i < n && text[i] != ',' && text[i] != '\r' && text[i] != '\n'
        invariant start <= i <= n
        invariant Bare(text[start..]) == (s + Bare(text[i..]).0, Bare(text[i..]).1)
      {
        assert text[i..][1..] == text[i + 1..];
        assert s + ([text[i]] + Bare(text[i + 1..]).0) == s + [text[i]] + Bare(text[i + 1..]).0;
        s := s + [text[i]];
        i := i + 1;
      }
      assert s + "" == s;
    }
  }

  lemma QuotedNothing()
    ensures Quoted("") == ("", "")
  {
  }

  lemma Regroup(s: string, c: string, rest: string)
    ensures s + (c + rest) == s + c + rest
  {
  }

  lemma QuotedNext(s: string, t: string)
    requires t != ""
    ensures t[0] != '"' ==> Quoted(t).1 == Quoted(t[1..]).1 && s + Quoted(t).0 == s + [t[0]] + Quoted(t[1..]).0
    ensures t[0] == '"' && |t| > 1 && t[1] == '"' ==> Quoted(t).1 == Quoted(t[2..]).1 && s + Quoted(t).0 == s + "\"" + Quoted(t[2..]).0
    ensures t[0] == '"' && !(|t| > 1 && t[1] == '"') ==> Quoted(t).1 == t[1..] && s + Quoted(t).0 == s
  {
    if t[0] != '"' {
      Regroup(s, [t[0]], Quoted(t[1..]).0);
    } else if |t| > 1 && t[1] == '"' {
      Regroup(s, "\"", Quoted(t[2..]).0);
    } else {
      assert s + "" == s;
    }
  }

  method ReadQuoted(text: string, start: nat) returns (s: string, i: nat)
    requires start <= |text|
    ensures start <= i <= |text| && (s, text[i..]) == Quoted(text[start..])
  {
    hide Quoted;
    i := start;
    s := "";
    var n := |text|;
    var closed := false;
    assert s + Quoted(text[i..]).0 == Quoted(text[i..]).0;
    while i < n && !closed
      invariant start <= i <= n
      invariant Quoted(text[start..]) == if closed then (s, text[i..]) else (s + Quoted(text[i..]).0, Quoted(text[i..]).1)
      decreases n - i, !closed
    {
      ghost var t := text[i..];
      QuotedNext(s, t);
      assert t[1..] == text[i + 1..];
      if text[i] == '"' {
        if i + 1 < n && text[i + 1] == '"' {
          assert t[2..] == text[i + 2..];
          s := s + "\"";
          i := i + 2;
        } else {
          i := i + 1;
          closed := true;
        }
      } else {
        s := s + [text[i]];
        i := i + 1;
      }
    }
    QuotedNothing();
    assert !closed ==> s + "" == s;
  }

  method ReadRow(text: string, start: nat) returns (row: seq<string>, i: nat)
    requires start <= |text|
    ensures start <= i <= |text| && (row, text[i..]) == Row(text[start..])
    ensures start < |text| ==> start < i
  {
    hide Field;
    i := start;
    row := [];
    var done := false;
    assert row + Row(text[i..]).0 == Row(text[i..]).0;
    while i < |text| && !done
      invariant start <= i <= |text|
      invariant Row(text[start..]) == if done then (row, text[i..]) else (row + Row(text[i..]).0, Row(text[i..]).1)
      decreases |text| - i, !done
    {
      ghost var t := text[i..];
      ghost var was := i;
      var s, j := ReadField(text, i);
      assert text[j..] == Field(t).1;
      assert forall rest :: row + ([s] + rest) == row + [s] + rest;
      row := row + [s];
      i := j;
      if i < |text| && text[i] == ',' {
        assert text[i..][1..] == text[i + 1..];
        i := i + 1;
      } else {
        ghost var u := SkipReturn(text[i..]);
        if i < |text| && text[i] == '\r' { i := i + 1; }
        assert u == text[i..];
        if i < |text| && text[i] == '\n' {
          assert u[1..] == text[i + 1..];
          i := i + 1;
          done := true;
        } else if i >= |text| {
          done := true;
        }
      }
    }
    assert !done ==> row + [] == row;
  }

  method BuildRecord(header: seq<string>, row: seq<string>) returns (obj: Record)
    ensures obj == RecordOf(header, row)
  {
    obj := map[];
    for k := 0 to |header|
      invariant obj == RecordOf(header[..k], row)
    {
      assert header[..k + 1][..k] == header[..k];
      if header[k] != PROTO { obj := obj[header[k] := if k < |row| then row[k] else ""]; }
    }
    assert header[..|header|] == header;
  }

  lemma RecordsNext(rows: seq<Record>, header: seq<string>, t: string)
    requires t != ""
    ensures var r := Row(t);
            rows + Records(header, t) == rows + (if r.0 == [""] then [] else [RecordOf(header, r.0)]) + Records(header, r.1)
  {
    hide Row, RecordOf;
  }

  /** Reads every text to its end. */
  method ParseCsv(text: string) returns (rows: seq<Record>)
    ensures rows == Parsed(text)
  {
    hide Row, RecordOf, Records;
    rows := [];
    assert text[0..] == text;
    var header, i := ReadRow(text, 0);
    while i < |text|
      invariant i <= |text| && Parsed(text) == rows + Records(header, text[i..])
    {
      RecordsNext(rows, header, text[i..]);
      var row, j := ReadRow(text, i);
      i := j;
      if |row| == 1 && row[0] == "" { continue; }
      var obj := BuildRecord(header, row);
      rows := rows + [obj];
    }
    NoRecords(header);
  }

  lemma NoRecords(header: seq<string>)
    ensures Records(header, "") == []
  {
  }

  // ── tables as section 2 of RFC 4180 prints them ──

  datatype Cell = Cell(text: string, quoted: bool)

  /** `crlf`: the line ends in CR LF, else in LF alone. */
  datatype Line = Line(cells: seq<Cell>, crlf: bool)

  /** A field with commas, line breaks or a leading quote is quoted. */
  predicate Printable(c: Cell) {
    c.quoted || ((forall i :: 0 <= i < |c.text| ==> !Ends(c.text[i])) && (c.text != "" ==> c.text[0] != '"'))
  }

  function Doubled(s: string): string {
    if s == "" then "" else (if s[0] == '"' then "\"\"" else [s[0]]) + Doubled(s[1..])
  }

  function PrintCell(c: Cell): string {
    if c.quoted then "\"" + Doubled(c.text) + "\"" else c.text
  }

  function PrintCells(cells: seq<Cell>): string
    requires cells != []
  {
    if |cells| == 1 then PrintCell(cells[0]) else PrintCell(cells[0]) + "," + PrintCells(cells[1..])
  }

  function Break(crlf: bool): string {
    if crlf then "\r\n" else "\n"
  }

  predicate WellFormed(lines: seq<Line>, columns: nat) {
    forall i :: 0 <= i < |lines| ==> |lines[i].cells| == columns && forall j :: 0 <= j < columns ==> Printable(lines[i].cells[j])
  }

  /** The lines, each with its break; the last one has one only if `final`. */
  function Print(lines: seq<Line>, final: bool): string
    requires forall l :: l in lines ==> l.cells != []
  {
    if lines == [] then ""
    else PrintCells(lines[0].cells) + (if |lines| > 1 || final then Break(lines[0].crlf) else "") + Print(lines[1..], final)
  }

  function Texts(cells: seq<Cell>): (r: seq<string>)
    ensures |r| == |cells|
  {
    if cells == [] then [] else [cells[0].text] + Texts(cells[1..])
  }

  lemma {:induction false} QuotedBack(s: string, rest: string)
    requires rest != "" ==> rest[0] != '"'
    ensures Quoted(Doubled(s) + "\"" + rest) == (s, rest)
  {
    var t := Doubled(s) + "\"" + rest;
    if s == "" {
      assert t == "\"" + rest && t[1..] == rest;
    } else {
      var tail := Doubled(s[1..]) + "\"" + rest;
      QuotedBack(s[1..], rest);
      if s[0] == '"' {
        assert t[..2] == "\"\"" && t[0] == '"' && t[1] == '"' && t[2..] == tail;
        assert "\"" + s[1..] == s;
      } else {
        assert t[0] == s[0] && t[1..] == tail && [s[0]] + s[1..] == s;
      }
    }
  }

  lemma {:induction false} BareBack(s: string, rest: string)
    requires forall i :: 0 <= i < |s| ==> !Ends(s[i])
    requires rest != "" ==> Ends(rest[0])
    ensures Bare(s + rest) == (s, rest)
  {
    if s == "" {
      assert s + rest == rest;
    } else {
      assert (s + rest)[1..] == s[1..] + rest && [s[0]] + s[1..] == s;
      BareBack(s[1..], rest);
    }
  }

  /** A printed field is read back, whatever follows it. */
  lemma FieldBack(c: Cell, rest: string)
    requires Printable(c) && (rest != "" ==> Ends(rest[0]))
    ensures Field(PrintCell(c) + rest) == (c.text, rest)
  {
    hide Quoted, Bare, Doubled;
    var t := PrintCell(c) + rest;
    if c.quoted {
      QuotedBack(c.text, rest);
      assert t[0] == '"' && t[1..] == Doubled(c.text) + "\"" + rest;
    } else {
      BareBack(c.text, rest);
      assert t != "" ==> t[0] == if c.text == "" then rest[0] else c.text[0];
    }
  }

  /** The line's last field leaves no trace at the end of the text. */
  predicate Traceless(cells: seq<Cell>)
    requires cells != []
  {
    cells[|cells| - 1] == Cell("", false)
  }

  lemma RowGoesOn(c: Cell, more: string)
    requires Printable(c)
    ensures var t := PrintCell(c) + "," + more;
            Row(t) == ([c.text] + Row(more).0, Row(more).1)
  {
    var after := "," + more;
    assert PrintCell(c) + "," + more == PrintCell(c) + after && after[1..] == more;
    FieldBack(c, after);
    hide PrintCell, Field;
  }

  lemma RowStops(c: Cell, crlf: bool, rest: string)
    requires Printable(c)
    ensures Row(PrintCell(c) + Break(crlf) + rest) == ([c.text], rest)
  {
    hide PrintCell, Field;
    var after := Break(crlf) + rest;
    assert PrintCell(c) + Break(crlf) + rest == PrintCell(c) + after;
    FieldBack(c, after);
    assert crlf ==> after[1..] == "\n" + rest;
    assert SkipReturn(after) == "\n" + rest && ("\n" + rest)[1..] == rest;
  }

  lemma {:induction false} RowBack(cells: seq<Cell>, crlf: bool, rest: string)
    requires cells != [] && forall j :: 0 <= j < |cells| ==> Printable(cells[j])
    ensures Row(PrintCells(cells) + Break(crlf) + rest) == (Texts(cells), rest)
    decreases |cells|
  {
    hide Row, Break;
    if |cells| == 1 {
      RowStops(cells[0], crlf, rest);
      assert Texts(cells) == [cells[0].text];
    } else {
      var more := PrintCells(cells[1..]) + Break(crlf) + rest;
      RowBack(cells[1..], crlf, rest);
      RowGoesOn(cells[0], more);
      assert PrintCells(cells) + Break(crlf) + rest == PrintCell(cells[0]) + "," + more;
    }
  }

  /** What is read of a line the text ends with. */
  function LastTexts(cells: seq<Cell>): seq<string>
    requires cells != []
  {
    if Traceless(cells) then Texts(cells)[..|cells| - 1] else Texts(cells)
  }

  lemma {:induction false} LastRowBack(cells: seq<Cell>)
    requires cells != [] && forall j :: 0 <= j < |cells| ==> Printable(cells[j])
    ensures Row(PrintCells(cells)) == (LastTexts(cells), "")
    decreases |cells|
  {
    if |cells| == 1 {
      LastCellBack(cells[0]);
      assert Texts(cells) == [cells[0].text];
    } else {
      RowGoesOn(cells[0], PrintCells(cells[1..]));
      LastRowBack(cells[1..]);
      var tail := Texts(cells[1..]);
      assert Texts(cells)[..|cells| - 1] == [cells[0].text] + tail[..|cells| - 2];
    }
  }

  lemma LastCellBack(c: Cell)
    requires Printable(c)
    ensures Row(PrintCell(c)) == (if c == Cell("", false) then [] else [c.text], "")
  {
    assert PrintCell(c) + "" == PrintCell(c);
    FieldBack(c, "");
  }

  // ── the round trip ──

  predicate Distinct(header: seq<string>) {
    forall i, j :: 0 <= i < j < |header| ==> header[i] != header[j]
  }

  /** The record of a row: every column holds its field. */
  ghost predicate Holds(o: Record, header: seq<string>, row: seq<string>) {
    && (forall c :: c in o <==> c in header)
    && forall j :: 0 <= j < |header| && j < |row| ==> o[header[j]] == row[j]
  }

  /** ... every column but one. */
  ghost predicate HoldsButProto(o: Record, header: seq<string>, row: seq<string>) {
    && (forall c :: c in o <==> c in header && c != PROTO)
    && forall j :: 0 <= j < |header| && j < |row| && header[j] != PROTO ==> o[header[j]] == row[j]
  }

  lemma {:induction false} RecordAt(header: seq<string>, row: seq<string>, j: nat)
    requires Distinct(header) && j < |header| && header[j] != PROTO
    ensures RecordOf(header, row)[header[j]] == if j < |row| then row[j] else ""
  {
    var n := |header| - 1;
    if j < n {
      RecordAt(header[..n], row, j);
      assert header[..n][j] == header[j];
    }
  }

  lemma RecordHolds(header: seq<string>, row: seq<string>)
    requires Distinct(header)
    ensures HoldsButProto(RecordOf(header, row), header, row)
    ensures Holds(RecordOf(header, row), header, row) <==> PROTO !in header
  {
    forall j | 0 <= j < |header| && header[j] != PROTO ensures RecordOf(header, row)[header[j]] == if j < |row| then row[j] else "" {
      RecordAt(header, row, j);
    }
    hide RecordOf;
  }

  /** A missing last field reads as an empty one. */
  lemma {:induction false} RecordPads(header: seq<string>, row: seq<string>)
    requires row != [] && row[|row| - 1] == ""
    ensures RecordOf(header, row[..|row| - 1]) == RecordOf(header, row)
  {
    if header != [] { RecordPads(header[..|header| - 1], row); }
  }

  ghost function RecordsOf(header: seq<string>, lines: seq<Line>): (rs: seq<Record>)
    ensures |rs| == |lines|
  {
    if lines == [] then [] else [RecordOf(header, Texts(lines[0].cells))] + RecordsOf(header, lines[1..])
  }

  /** The text ends with a line of two empty fields, the last one bare, without a line break. */
  predicate EndsBlank(lines: seq<Line>, final: bool)
    requires forall l :: l in lines ==> l.cells != []
  {
    && !final && lines != []
    && var cells := lines[|lines| - 1].cells;
    && |cells| == 2 && cells[0].text == "" && Traceless(cells)
  }

  lemma LastLineBack(header: seq<string>, line: Line, columns: nat)
    requires columns >= 2 && line.cells != [] && WellFormed([line], columns)
    ensures Records(header, PrintCells(line.cells)) == if EndsBlank([line], false) then [] else [RecordOf(header,
        Texts(line.cells))]
  {
    var cells, t := line.cells, PrintCells(line.cells);
    assert cells == [line][0].cells;
    LastRowBack(cells);
    assert t != "" && Records(header, "") == [];
    TextsAre(cells);
    if Traceless(cells) {
      assert LastTexts(cells)[0] == cells[0].text && |LastTexts(cells)| == columns - 1;
      assert EndsBlank([line], false) <==> LastTexts(cells) == [""];
      RecordPads(header, Texts(cells));
    }
    hide Row, PrintCells, Texts, RecordOf;
  }

  lemma {:induction false} TextsAre(cells: seq<Cell>)
    ensures forall j :: 0 <= j < |cells| ==> Texts(cells)[j] == cells[j].text
  {
    if cells != [] { TextsAre(cells[1..]); }
  }

  lemma {:induction false} LinesBack(header: seq<string>, lines: seq<Line>, columns: nat, final: bool)
    requires columns >= 2 && WellFormed(lines, columns)
    ensures Records(header, Print(lines, final)) ==
            if EndsBlank(lines, final) then RecordsOf(header, lines)[..|lines| - 1] else RecordsOf(header, lines)
    decreases |lines|
  {
    if lines != [] {
      hide PrintCells, RecordOf, Row, Texts, Break;
      if |lines| == 1 && !final {
        OneLeft(header, lines, columns);
      } else {
        LinesBack(header, lines[1..], columns, final);
        FirstLineBack(header, lines, columns, final);
        BlankIsLast(header, lines, final);
      }
    }
  }

  lemma OneLeft(header: seq<string>, lines: seq<Line>, columns: nat)
    requires columns >= 2 && WellFormed(lines, columns) && |lines| == 1
    ensures Records(header, Print(lines, false)) == if EndsBlank(lines, false) then RecordsOf(header,
        lines)[..0] else RecordsOf(header, lines)
  {
    hide PrintCells, RecordOf, Row, Texts, Records;
    assert lines == [lines[0]] && Print(lines[1..], false) == "" && RecordsOf(header, lines[1..]) == [];
    assert Print(lines, false) == PrintCells(lines[0].cells);
    LastLineBack(header, lines[0], columns);
  }

  lemma BlankIsLast(header: seq<string>, lines: seq<Line>, final: bool)
    requires (forall l :: l in lines ==> l.cells != []) && lines != [] && (|lines| > 1 || final)
    ensures EndsBlank(lines, final) <==> EndsBlank(lines[1..], final)
    ensures RecordsOf(header, lines) == [RecordOf(header, Texts(lines[0].cells))] + RecordsOf(header, lines[1..])
    ensures EndsBlank(lines, final) ==>
      RecordsOf(header, lines)[..|lines| - 1] == [RecordOf(header, Texts(lines[0].cells))] + RecordsOf(header,
          lines[1..])[..|lines| - 2]
  {
    hide RecordOf, Texts;
  }

  lemma FirstLineBack(header: seq<string>, lines: seq<Line>, columns: nat, final: bool)
    requires columns >= 2 && lines != [] && WellFormed(lines, columns) && (|lines| > 1 || final)
    ensures Records(header, Print(lines, final)) == [RecordOf(header, Texts(lines[0].cells))] + Records(header,
        Print(lines[1..], final))
  {
    var cells, rest := lines[0].cells, Print(lines[1..], final);
    var t := PrintCells(cells) + Break(lines[0].crlf) + rest;
    assert Print(lines, final) == t && t != "";
    RowBack(cells, lines[0].crlf, rest);
    assert |Texts(cells)| >= 2;
    hide Row, PrintCells, Texts, RecordOf, Print;
  }

  lemma TableIs(lines: seq<Line>, columns: nat, final: bool)
    requires columns >= 2 && lines != [] && WellFormed(lines, columns)
    ensures
      var header, rows := Texts(lines[0].cells), lines[1..];
      Parsed(Print(lines, final)) == if EndsBlank(rows, final) then RecordsOf(header,
          rows)[..|rows| - 1] else RecordsOf(header, rows)
  {
    hide Row, PrintCells, Texts, RecordOf, LastTexts;
    var header, rows, cells := Texts(lines[0].cells), lines[1..], lines[0].cells;
    if rows == [] && !final {
      assert Print(rows, final) == "" && Print(lines, final) == PrintCells(cells);
      LastRowBack(cells);
    } else {
      RowBack(cells, lines[0].crlf, Print(rows, final));
      assert Print(lines, final) == PrintCells(cells) + Break(lines[0].crlf) + Print(rows, final);
      LinesBack(header, rows, columns, final);
    }
  }

  /** Every row comes back, with all its fields. */
  ghost predicate BackWhole(back: seq<Record>, header: seq<string>, rows: seq<Line>) {
    |back| == |rows| && forall i :: 0 <= i < |rows| ==> Holds(back[i], header, Texts(rows[i].cells))
  }

  /** A table of at least two distinct columns comes back whole exactly when no column is named __proto__, or there are no rows,
      and the text does not end with a row of two empty fields whose last one is bare and has no line break after it.
      That row is lost; the rows that come back have every other column. */
  lemma TableBack(lines: seq<Line>, columns: nat, final: bool)
    requires columns >= 2 && lines != [] && WellFormed(lines, columns) && Distinct(Texts(lines[0].cells))
    ensures
      var header, rows, back := Texts(lines[0].cells), lines[1..], Parsed(Print(lines, final));
      && (BackWhole(back, header, rows) <==> !EndsBlank(rows, final) && (rows == [] || PROTO !in header))
      && |back| == |rows| - (if EndsBlank(rows, final) then 1 else 0)
      && (forall i :: 0 <= i < |back| ==> HoldsButProto(back[i], header, Texts(rows[i].cells)))
  {
    hide Row, PrintCells, Texts, RecordOf, Print, Holds, HoldsButProto, Parsed;
    var header, rows := Texts(lines[0].cells), lines[1..];
    TableIs(lines, columns, final);
    forall i | 0 <= i < |rows| ensures HoldsButProto(RecordsOf(header, rows)[i], header, Texts(rows[i].cells)) &&
        (Holds(RecordsOf(header, rows)[i], header, Texts(rows[i].cells)) <==> PROTO !in header) {
      RecordsAre(header, rows, i);
      RecordHolds(header, Texts(rows[i].cells));
    }
  }

  lemma {:induction false} RecordsAre(header: seq<string>, lines: seq<Line>, i: nat)
    requires i < |lines|
    ensures RecordsOf(header, lines)[i] == RecordOf(header, Texts(lines[i].cells))
  {
    if i > 0 { RecordsAre(header, lines[1..], i - 1); }
  }
}
