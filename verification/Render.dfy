/** The frame printer as the client runs it: one buffer, filled with a running offset. */
module Render {
  import opened Grid
  import opened FrameText
  import opened Args

  class RenderString {
    const renderData: array<char>
    var length: nat

    constructor ()
      ensures renderData.Length == BUFFER_SIZE && fresh(renderData) && length == 0
    {
      renderData := new char[BUFFER_SIZE](i => '\0');
      length := 0;
    }
  }

  /** The text so far. */
  predicate Holds(buf: array<char>, at: nat, text: string)
    reads buf
  {
    at <= buf.Length && buf[..at] == text
  }

  lemma Cat(t: string, a: string, b: string)
    ensures t + (a + b) == t + a + b
  {
  }

  /** `snprintf`: the text and a terminator that the next write covers. */
  method Print(buf: array<char>, at: nat, s: string, ghost text: string) returns (next: nat)
    requires Holds(buf, at, text) && at + |s| + 1 <= buf.Length
    modifies buf
    ensures next == at + |s| && Holds(buf, next, text + s)
  {
    forall i | 0 <= i < |s| { buf[at + i] := s[i]; }
    buf[at + |s|] := '\0';
    next := at + |s|;
    assert buf[..at] == text && buf[at..next] == s;
  }

  /** `memcpy`, and the single-character writes. */
  method Copy(buf: array<char>, at: nat, s: string, ghost text: string) returns (next: nat)
    requires Holds(buf, at, text) && at + |s| <= buf.Length
    modifies buf
    ensures next == at + |s| && Holds(buf, next, text + s)
  {
    forall i | 0 <= i < |s| { buf[at + i] := s[i]; }
    next := at + |s|;
    assert buf[..at] == text && buf[at..next] == s;
  }

  method CopySeparators(buf: array<char>, at: nat, columns: nat, ghost text: string) returns (next: nat)
    requires Holds(buf, at, text) && at + 6 * columns <= buf.Length
    modifies buf
    ensures next == at + 6 * columns && Holds(buf, next, text + Separators(columns))
  {
    assert text + Separators(0) == text;
    for i := 0 to columns
      invariant Holds(buf, at + 6 * i, text + Separators(i))
    {
      var _ := Copy(buf, at + i * 6, SEPARATOR, text + Separators(i));
      Cat(text, Separators(i), SEPARATOR);
    }
    next := at + columns * 6;
  }

  method PrintLabels(buf: array<char>, at: nat, columns: nat, ghost text: string) returns (next: nat)
    requires Holds(buf, at, text) && columns <= 9999 && at + 6 * columns + 1 <= buf.Length
    modifies buf
    ensures next == at + 6 * columns && Holds(buf, next, text + Labels(columns))
  {
    next := at;
    assert text + Labels(0) == text;
    for i := 0 to columns
      invariant next == at + 6 * i && Holds(buf, next, text + Labels(i))
    {
      LabelLength(i + 1);
      next := Print(buf, next, Label(i + 1), text + Labels(i));
      Cat(text, Labels(i), Label(i + 1));
    }
  }

  method PrintTopBorder(buf: array<char>, at: nat, columns: nat, ghost text: string) returns (next: nat)
    requires Holds(buf, at, text) && columns > 0 && at + 7 + 6 * columns <= buf.Length
    modifies buf
    ensures next == at + 7 + 6 * columns && Holds(buf, next, text + TopBorder(columns))
  {
    next := Print(buf, at, Spaces(5), text);
    next := Copy(buf, next, "*", text + Spaces(5));
    ghost var before := text + Spaces(5) + "*";
    next := CopySeparators(buf, next, columns, before);
    buf[next - 1] := '*';
    assert buf[..next] == before + Separators(columns)[6 * columns - 1 := '*'];
    next := Copy(buf, next, "\n", before + Separators(columns)[6 * columns - 1 := '*']);
    assert before + Separators(columns)[6 * columns - 1 := '*'] + "\n" == text + TopBorder(columns);
  }

  method PrintHeader(buf: array<char>, symbol: char, opponent: char, columns: nat) returns (next: nat)
    requires 0 < columns <= 9999 && 50 + 12 * columns <= buf.Length
    modifies buf
    ensures next == 50 + 12 * columns && Holds(buf, next, Header(symbol, opponent, columns))
  {
    LabelsLength(columns);
    next := Print(buf, 0, Hud(symbol, opponent), "");
    ghost var x := Hud(symbol, opponent);
    assert "" + x == x;
    next := Print(buf, next, Spaces(5), x);
    next := PrintLabels(buf, next, columns, x + Spaces(5));
    next := Copy(buf, next, "\n", x + Spaces(5) + Labels(columns));
    next := PrintTopBorder(buf, next, columns, x + Spaces(5) + Labels(columns) + "\n");
  }

  method PrintCells(buf: array<char>, at: nat, matrix: array2<char>, i: nat, ghost row: seq<char>, ghost text: string)
    returns (next: nat)
    requires i < matrix.Length0 && |row| == matrix.Length1 && forall j :: 0 <= j < |row| ==> row[j] == matrix[i, j]
    requires Holds(buf, at, text) && at + 6 * |row| + 1 <= buf.Length
    modifies buf
    ensures next == at + 6 * |row| && Holds(buf, next, text + Cells(row, |row|))
  {
    next := at;
    assert text + Cells(row, 0) == text;
    for j := 0 to matrix.Length1
      invariant next == at + 6 * j && Holds(buf, next, text + Cells(row, j))
    {
      var cell := "|" + Spaces(2) + [matrix[i, j]] + Spaces(2);
      next := Print(buf, next, cell, text + Cells(row, j));
      Cat(text, Cells(row, j), cell);
    }
  }

  method PrintRow(buf: array<char>, at: nat, matrix: array2<char>, i: nat, ghost row: seq<char>, ghost text: string)
    returns (next: nat)
    requires i < matrix.Length0 && i < 999 && |row| == matrix.Length1
    requires forall j :: 0 <= j < |row| ==> row[j] == matrix[i, j]
    requires Holds(buf, at, text) && at + RowWidth(|row|) <= buf.Length
    modifies buf
    ensures next == at + RowWidth(|row|) && Holds(buf, next, text + RowText(i, row))
  {
    LabelLength(i + 1);
    next := Print(buf, at, RowLabel(i + 1), text);
    ghost var x := RowLabel(i + 1);
    next := PrintCells(buf, next, matrix, i, row, text + x);
    Cat(text, x, Cells(row, |row|));
    x := x + Cells(row, |row|);
    next := PrintBorder(buf, next, matrix.Length1, x, text);
  }

  /** The end of a row and the border under it. */
  method PrintBorder(buf: array<char>, at: nat, columns: nat, ghost x: string, ghost text: string) returns (next: nat)
    requires Holds(buf, at, text + x) && at + 9 + 6 * columns <= buf.Length
    modifies buf
    ensures next == at + 9 + 6 * columns
    ensures Holds(buf, next, text + (x + "|\n" + Spaces(5) + "|" + Separators(columns) + "\n"))
  {
    next := Copy(buf, at, "|\n", text + x);
    Cat(text, x, "|\n");
    next := Print(buf, next, Spaces(5), text + (x + "|\n"));
    Cat(text, x + "|\n", Spaces(5));
    ghost var y := x + "|\n" + Spaces(5);
    next := Copy(buf, next, "|", text + y);
    Cat(text, y, "|");
    next := CopySeparators(buf, next, columns, text + (y + "|"));
    Cat(text, y + "|", Separators(columns));
    ghost var z := y + "|" + Separators(columns);
    next := Copy(buf, next, "\n", text + z);
    Cat(text, z, "\n");
  }

  method PrintBody(buf: array<char>, at: nat, matrix: array2<char>, ghost text: string) returns (next: nat)
    requires Holds(buf, at, text) && matrix.Length0 <= 999
    requires at + Start(matrix.Length1, matrix.Length0) <= buf.Length
    modifies buf
    ensures next == at + Start(matrix.Length1, matrix.Length0)
    ensures Holds(buf, next, text + Body(CellsOfMatrix(matrix), matrix.Length0))
  {
    ghost var cells := CellsOfMatrix(matrix);
    next := at;
    assert text + Body(cells, 0) == text;
    for i := 0 to matrix.Length0
      invariant next == at + Start(matrix.Length1, i) && Holds(buf, next, text + Body(cells, i))
    {
      StartBelow(matrix.Length1, i, matrix.Length0);
      next := PrintRow(buf, next, matrix, i, cells[i], text + Body(cells, i));
      Cat(text, Body(cells, i), RowText(i, cells[i]));
    }
  }

  lemma {:induction false} LinesGrow(messages: seq<string>, n: nat)
    requires n <= |messages|
    ensures |Lines(messages, n)| <= |Lines(messages, |messages|)|
    decreases |messages| - n
  {
    if n == |messages| {
    } else {
      LinesGrow(messages, n + 1);
    }
  }

  method PrintMessages(buf: array<char>, at: nat, messages: seq<string>, ghost text: string) returns (next: nat)
    requires Holds(buf, at, text) && at + |Suffix(messages)| <= buf.Length
    modifies buf
    ensures next == at + |Suffix(messages)| && Holds(buf, next, text + Suffix(messages))
  {
    next := at;
    if messages == [] {
      assert text + "" == text;
      return;
    }
    next := Copy(buf, next, "\n", text);
    ghost var t := text + "\n";
    assert t + Lines(messages, 0) == t;
    for i := 0 to |messages|
      invariant next == at + 1 + |Lines(messages, i)| && Holds(buf, next, t + Lines(messages, i))
    {
      next := PrintMessage(buf, next, messages, i, t);
    }
    Cat(text, "\n", Lines(messages, |messages|));
  }

  method PrintMessage(buf: array<char>, at: nat, messages: seq<string>, i: nat, ghost t: string) returns (next: nat)
    requires i < |messages| && Holds(buf, at, t + Lines(messages, i))
    requires at + |Lines(messages, |messages|)| - |Lines(messages, i)| <= buf.Length
    modifies buf
    ensures next == at + |Lines(messages, i + 1)| - |Lines(messages, i)| && Holds(buf, next, t + Lines(messages, i + 1))
  {
    LinesGrow(messages, i + 1);
    ghost var x := Lines(messages, i);
    next := Copy(buf, at, messages[i], t + x);
    Cat(t, x, messages[i]);
    if |messages| > 1 {
      next := Copy(buf, next, "\n", t + (x + messages[i]));
    }
    Cat(t, x + messages[i], if |messages| > 1 then "\n" else "");
    assert |messages| <= 1 ==> t + (x + messages[i]) + "" == t + (x + messages[i]);
  }

  /** The two corners of the bottom border. */
  method FixCorners(buf: array<char>, at: nat, columns: nat, ghost text: string)
    requires Holds(buf, at, text) && at >= 6 * columns + 2
    modifies buf
    ensures Holds(buf, at, FixUp(text, columns))
  {
    buf[at - 2] := '*';
    buf[at - columns * 6 - 2] := '*';
  }

  /** A frame that fits the buffer has few rows and columns. */
  lemma FitsIsSmall(rows: nat, columns: nat)
    requires FrameLength(rows, columns) <= BUFFER_SIZE
    ensures rows <= 999 && columns <= 9999
  {
    assert 12 * columns * (rows + 1) >= 12 * columns;
  }

  /** The exact condition: a frame with its messages has room in the buffer if and only
      if the formula of its length allows it. The source does not check. */
  lemma FitsExactly(symbol: char, opponent: char, cells: seq<seq<char>>, columns: nat, messages: seq<string>)
    requires columns > 0 && cells != [] && |cells[0]| == columns && Rectangle(cells, |cells|, columns)
    ensures |Frame(symbol, opponent, cells, columns, messages)| <= BUFFER_SIZE
            <==> FrameLength(|cells|, columns) + |Suffix(messages)| <= BUFFER_SIZE
  {
    var rows := |cells|;
    HeaderLength(symbol, opponent, columns);
    BodyLong(cells, rows, columns);
    LengthSplit(rows, columns);
    FrameParts(symbol, opponent, cells, columns, messages);
    if FrameLength(rows, columns) <= BUFFER_SIZE { FitsIsSmall(rows, columns); }
  }

  /** A board of 12 x 12 passes the parser and never fits, whatever it shows. */
  lemma TwelveByTwelve(symbol: char, opponent: char, cells: seq<seq<char>>, messages: seq<string>)
    requires Rectangle(cells, 12, 12)
    ensures ParseArgs(5, 12, 12, [0x58], [0x4F]).Some?
    ensures |Frame(symbol, opponent, cells, 12, messages)| == 2090 + |Suffix(messages)| > BUFFER_SIZE
  {
    HeaderLength(symbol, opponent, 12);
    BodyLong(cells, 12, 12);
    LengthSplit(12, 12);
    FrameParts(symbol, opponent, cells, 12, messages);
  }

  /** The printer: the buffer holds exactly the frame, as long as the frame fits. */
  method ClientRender(r: RenderString, symbol: char, opponent: char, matrix: array2<char>, messages: seq<string>)
    returns (length: nat)
    requires r.renderData.Length == BUFFER_SIZE
    requires matrix.Length0 > 0 && matrix.Length1 > 0
    requires FrameLength(matrix.Length0, matrix.Length1) + |Suffix(messages)| <= BUFFER_SIZE
    modifies r, r.renderData
    ensures length == r.length == FrameLength(matrix.Length0, matrix.Length1) + |Suffix(messages)|
    ensures r.renderData[..length] == Frame(symbol, opponent, CellsOfMatrix(matrix), matrix.Length1, messages)
  {
    var rows, columns := matrix.Length0, matrix.Length1;
    ghost var cells := CellsOfMatrix(matrix);
    FitsIsSmall(rows, columns);
    LengthSplit(rows, columns);
    BodyLong(cells, rows, columns);
    var buf := r.renderData;
    var total := PrintHeader(buf, symbol, opponent, columns);
    ghost var header := Header(symbol, opponent, columns);
    total := PrintBody(buf, total, matrix, header);
    ghost var text := header + Body(cells, rows);
    FixCorners(buf, total, columns, text);
    total := PrintMessages(buf, total, messages, FixUp(text, columns));
    r.length := r.length + (total - r.length);
    length := r.length;
  }
}
