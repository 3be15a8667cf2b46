/** What a reader finds in a frame: the two symbols, the numbers of columns and rows, and
    every character of the drawing. */
module FrameReading {
  import opened Grid
  import opened FrameText
  import opened FramePieces

  // ----- Parts of the text

  /** The drawn board under its labels. */
  ghost predicate Drawable(cells: seq<seq<char>>, columns: nat) {
    && columns > 0 && cells != [] && |cells[0]| == columns && Rectangle(cells, |cells|, columns)
    && |cells| <= 999 && columns <= 9999
  }

  /** A frame holds the header and the body, but for the two corners. */
  ghost predicate Framed(frame: string, header: string, body: string, columns: nat) {
    && |header| == 50 + 12 * columns && |body| >= 14 + 12 * columns && |frame| >= |header| + |body|
    && (forall k :: 0 <= k < |header| ==> frame[k] == header[k])
    && forall k :: 0 <= k < |body| ==>
                     frame[|header| + k] == if k == |body| - 2 || k == |body| - 6 * columns - 2 then '*' else body[k]
  }

  lemma FramedBy(header: string, body: string, suffix: string, columns: nat)
    requires |header| == 50 + 12 * columns && |body| >= 14 + 12 * columns
    ensures Framed(FixUp(header + body, columns) + suffix, header, body, columns)
  {
  }

  lemma FrameIs(symbol: char, opponent: char, cells: seq<seq<char>>, columns: nat, messages: seq<string>)
    requires Drawable(cells, columns)
    ensures Framed(Frame(symbol, opponent, cells, columns, messages), Header(symbol, opponent, columns), Body(cells, |cells|), columns)
  {
    HeaderLength(symbol, opponent, columns);
    BodyLong(cells, |cells|, columns);
    FrameParts(symbol, opponent, cells, columns, messages);
    FramedBy(Header(symbol, opponent, columns), Body(cells, |cells|), Suffix(messages), columns);
  }

  // ----- The symbols

  /** The first line names the player's own symbol, then the opponent's, whatever the board
      and the messages. */
  lemma SymbolsRead(symbol: char, opponent: char, cells: seq<seq<char>>, columns: nat, messages: seq<string>)
    requires Drawable(cells, columns)
    ensures var frame := Frame(symbol, opponent, cells, columns, messages);
            && |frame| >= 37 && frame[11] == symbol && frame[34] == opponent
            && frame[..11] == "Giocatore: " && frame[12..34] == "  ------- Avversario: " && frame[35..37] == "\n\n"
  {
    FrameIs(symbol, opponent, cells, columns, messages);
    HeaderSplit(Hud(symbol, opponent), Labels(columns), TopBorder(columns), 0);
    HudHere(Frame(symbol, opponent, cells, columns, messages), Header(symbol, opponent, columns), symbol, opponent);
  }

  lemma HudHere(frame: string, header: string, symbol: char, opponent: char)
    requires 37 <= |header| <= |frame| && (forall k :: 0 <= k < |header| ==> frame[k] == header[k]) && header[..37] == Hud(symbol, opponent)
    ensures frame[11] == symbol && frame[34] == opponent
    ensures frame[..11] == "Giocatore: " && frame[12..34] == "  ------- Avversario: " && frame[35..37] == "\n\n"
  {
    var hud := Hud(symbol, opponent);
    assert frame[..37] == hud;
    assert frame[..11] == hud[..11] && frame[12..34] == hud[12..34] && frame[35..37] == hud[35..37];
    assert frame[11] == hud[11] && frame[34] == hud[34];
  }

  // ----- The numbers of columns and rows

  lemma HeaderNumber(symbol: char, opponent: char, columns: nat, j: nat)
    requires j < columns <= 9999
    ensures var header := Header(symbol, opponent, columns);
            && |header| == 50 + 12 * columns && header[42 + 6 * j..48 + 6 * j] == Label(j + 1)
            && header[37..42] == Spaces(5) && header[42 + 6 * columns] == '\n'
  {
    HeaderLength(symbol, opponent, columns);
    LabelIn(columns, j);
    HeaderSplit(Hud(symbol, opponent), Labels(columns), TopBorder(columns), 6 * j);
  }

  lemma HeaderSplit(hud: string, numbers: string, rest: string, k: nat)
    requires |hud| == 37 && k <= |numbers|
    ensures var header := hud + Spaces(5) + numbers + "\n" + rest;
            && |header| == 43 + |numbers| + |rest| && header[..37] == hud
            && (k + 6 <= |numbers| ==> header[42 + k..48 + k] == numbers[k..k + 6]) && header[37..42] == Spaces(5) && header[42 + |numbers|] == '\n'
  {
  }

  /** The number above column j reads j + 1 and ends above the cells of that column. */
  lemma ColumnNumber(symbol: char, opponent: char, cells: seq<seq<char>>, columns: nat, messages: seq<string>, j: nat)
    requires Drawable(cells, columns) && j < columns
    ensures var frame := Frame(symbol, opponent, cells, columns, messages);
            && |frame| > 42 + 6 * columns
            && Reads(frame[42 + 6 * j..46 + 6 * j], j + 1) && frame[45 + 6 * j] as int == '0' as int + (j + 1) % 10
            && frame[46 + 6 * j..48 + 6 * j] == "  "
            && frame[37..42] == "     " && frame[42 + 6 * columns] == '\n'
  {
    FrameIs(symbol, opponent, cells, columns, messages);
    HeaderNumber(symbol, opponent, columns, j);
    LabelSplit(j + 1);
    NumberHere(Frame(symbol, opponent, cells, columns, messages), Header(symbol, opponent, columns), columns, j, Label(j + 1));
  }

  lemma NumberHere(frame: string, header: string, columns: nat, j: nat, text: string)
    requires j < columns && |header| == 50 + 12 * columns <= |frame| && forall k :: 0 <= k < |header| ==> frame[k] == header[k]
    requires |text| == 6 && header[42 + 6 * j..48 + 6 * j] == text && header[37..42] == Spaces(5) && header[42 + 6 * columns] == '\n'
    ensures frame[42 + 6 * j..46 + 6 * j] == text[..4] && frame[46 + 6 * j..48 + 6 * j] == text[4..] && frame[45 + 6 * j] == text[3]
    ensures frame[37..42] == "     " && frame[42 + 6 * columns] == '\n'
  {
    assert frame[42 + 6 * j..48 + 6 * j] == text;
    assert frame[42 + 6 * j..46 + 6 * j] == frame[42 + 6 * j..48 + 6 * j][..4];
    assert frame[46 + 6 * j..48 + 6 * j] == frame[42 + 6 * j..48 + 6 * j][4..];
    assert frame[45 + 6 * j] == frame[42 + 6 * j..48 + 6 * j][3];
    assert frame[37..42] == header[37..42];
  }

  // ----- The drawing, line by line

  /** Where line `y` of the drawing begins: borders have even numbers, rows odd ones. */
  function LineStart(columns: nat, y: nat): nat {
    if y == 0 then 43 + 6 * columns else LineStart(columns, y - 1) + 7 + 6 * columns
  }

  lemma {:induction false} LineStartIs(columns: nat, y: nat)
    ensures LineStart(columns, y) == 43 + 6 * columns + y * (7 + 6 * columns)
  {
    if y > 0 {
      LineStartIs(columns, y - 1);
      assert y * (7 + 6 * columns) == (y - 1) * (7 + 6 * columns) + (7 + 6 * columns);
    }
  }

  /** The character of line `y` at `x`; the numbers of the rows are left of `x` = 5. */
  function Drawn(cells: seq<seq<char>>, columns: nat, y: nat, x: nat): char
    requires Rectangle(cells, |cells|, columns) && y <= 2 * |cells| && x <= 6 + 6 * columns && (y % 2 == 1 ==> x >= 5)
  {
    if x == 6 + 6 * columns then '\n'
    else if x < 5 then ' '
    else if y % 2 == 1 then
      if (x - 5) % 6 == 0 then '|' else if (x - 5) % 6 == 3 then cells[y / 2][(x - 5) / 6] else ' '
    else if (x - 5) % 6 != 0 then '-'
    else if (y == 0 || y == 2 * |cells|) && (x == 5 || x == 5 + 6 * columns) then '*'
    else if x == 5 then '|'
    else '+'
  }

  lemma {:induction false} LineStarts(columns: nat, i: nat)
    ensures LineStart(columns, 2 * i + 1) == 50 + 12 * columns + Start(columns, i)
    ensures LineStart(columns, 2 * i + 2) == 57 + 18 * columns + Start(columns, i)
  {
    if i == 0 {
      assert LineStart(columns, 0) == 43 + 6 * columns;
    } else {
      LineStarts(columns, i - 1);
    }
  }

  /** Every row is at its place in the body. */
  ghost predicate RowsIn(body: string, cells: seq<seq<char>>, columns: nat) {
    && Rectangle(cells, |cells|, columns) && |body| == Start(columns, |cells|)
    && forall i: nat, k: nat :: i < |cells| && k < 14 + 12 * columns ==> RowIs(body, cells[i], i, Start(columns, i), k)
  }

  predicate RowIs(body: string, row: seq<char>, i: nat, start: nat, k: nat)
    requires k < 14 + 12 * |row|
  {
    start + k < |body| && body[start + k] == RowGlyph(i, row, k)
  }

  lemma BodyRow(cells: seq<seq<char>>, columns: nat, i: nat, k: nat, text: string)
    requires Rectangle(cells, |cells|, columns) && i < |cells| <= 999 && k < |text| && text == RowText(i, cells[i])
    ensures Start(columns, i) + k < |Body(cells, |cells|)| && Body(cells, |cells|)[Start(columns, i) + k] == text[k]
  {
    BodyLong(cells, i, columns);
    RowInBody(cells, |cells|, i, k, Start(columns, i) + k, text[k]);
  }

  lemma Parts(symbol: char, opponent: char, cells: seq<seq<char>>, columns: nat, messages: seq<string>) returns (header: string, body: string)
    requires Drawable(cells, columns)
    ensures Framed(Frame(symbol, opponent, cells, columns, messages), header, body, columns) && RowsIn(body, cells, columns)
    ensures header == Header(symbol, opponent, columns)
  {
    header, body := Header(symbol, opponent, columns), Body(cells, |cells|);
    FrameIs(symbol, opponent, cells, columns, messages);
    BodyLong(cells, |cells|, columns);
    forall i: nat, k: nat | i < |cells| && k < 14 + 12 * columns ensures RowIs(body, cells[i], i, Start(columns, i), k) {
      RowGlyphAt(i, cells[i], k);
      BodyRow(cells, columns, i, k, RowText(i, cells[i]));
    }
  }

  lemma RowsFollow(columns: nat, i: nat, rows: nat)
    requires i < rows
    ensures if i == rows - 1 then Start(columns, rows) == Start(columns, i) + 14 + 12 * columns
            else Start(columns, rows) >= Start(columns, i) + 28 + 24 * columns
  {
    if i < rows - 1 { StartBelow(columns, i + 1, rows); }
  }

  /** What lies at position `k` of row `i` in the frame. */
  lemma FrameRow(frame: string, header: string, body: string, cells: seq<seq<char>>, columns: nat, i: nat, k: nat)
    requires Framed(frame, header, body, columns) && RowsIn(body, cells, columns) && i < |cells| && k < 14 + 12 * columns
    ensures var at := 50 + 12 * columns + Start(columns, i) + k;
            && at < |frame|
            && frame[at] == if i == |cells| - 1 && (k == 12 + 6 * columns || k == 12 + 12 * columns) then '*'
                            else RowGlyph(i, cells[i], k)
  {
    assert RowIs(body, cells[i], i, Start(columns, i), k);
    RowsFollow(columns, i, |cells|);
    RowHere(frame, header, body, columns, RowGlyph(i, cells[i], k), Start(columns, i), i == |cells| - 1, k);
  }

  lemma RowHere(frame: string, header: string, body: string, columns: nat, c: char, start: nat, last: bool, k: nat)
    requires Framed(frame, header, body, columns) && k < 14 + 12 * columns && start + k < |body| && body[start + k] == c
    requires if last then |body| == start + 14 + 12 * columns else |body| >= start + 28 + 24 * columns
    ensures var at := 50 + 12 * columns + start + k;
            at < |frame| && frame[at] == if last && (k == 12 + 6 * columns || k == 12 + 12 * columns) then '*' else c
  {
    assert frame[|header| + (start + k)] == frame[50 + 12 * columns + start + k];
  }

  lemma {:induction false} PictureExact(symbol: char, opponent: char, cells: seq<seq<char>>, columns: nat, messages: seq<string>, y: nat, x: nat)
    requires Drawable(cells, columns) && y <= 2 * |cells| && x <= 6 + 6 * columns && (y % 2 == 1 ==> x >= 5)
    ensures var frame, at := Frame(symbol, opponent, cells, columns, messages), LineStart(columns, y) + x;
            at < |frame| && frame[at] == Drawn(cells, columns, y, x)
  {
    var header, body := Parts(symbol, opponent, cells, columns, messages);
    var frame := Frame(symbol, opponent, cells, columns, messages);
    if y == 0 {
      TopLine(frame, symbol, opponent, header, cells, columns, x);
    } else {
      LineExact(frame, header, body, cells, columns, y, x);
    }
  }

  lemma LineExact(frame: string, header: string, body: string, cells: seq<seq<char>>, columns: nat, y: nat, x: nat)
    requires Framed(frame, header, body, columns) && RowsIn(body, cells, columns)
    requires 0 < y <= 2 * |cells| && x <= 6 + 6 * columns && (y % 2 == 1 ==> x >= 5)
    ensures var at := LineStart(columns, y) + x; at < |frame| && frame[at] == Drawn(cells, columns, y, x)
  {
    if y % 2 == 1 {
      RowExact(frame, header, body, cells, columns, y / 2, x);
    } else {
      BorderExact(frame, header, body, cells, columns, y / 2 - 1, x);
    }
  }

  lemma RowExact(frame: string, header: string, body: string, cells: seq<seq<char>>, columns: nat, i: nat, x: nat)
    requires Framed(frame, header, body, columns) && RowsIn(body, cells, columns)
    requires i < |cells| && 5 <= x <= 6 + 6 * columns
    ensures var at := LineStart(columns, 2 * i + 1) + x; at < |frame| && frame[at] == Drawn(cells, columns, 2 * i + 1, x)
  {
    LineStarts(columns, i);
    FrameRow(frame, header, body, cells, columns, i, x);
    RowDrawn(cells, columns, i, x);
  }

  lemma BorderExact(frame: string, header: string, body: string, cells: seq<seq<char>>, columns: nat, i: nat, x: nat)
    requires Framed(frame, header, body, columns) && RowsIn(body, cells, columns)
    requires i < |cells| && x <= 6 + 6 * columns
    ensures var at := LineStart(columns, 2 * i + 2) + x; at < |frame| && frame[at] == Drawn(cells, columns, 2 * i + 2, x)
  {
    LineStarts(columns, i);
    FrameRow(frame, header, body, cells, columns, i, 7 + 6 * columns + x);
    BorderDrawn(cells, columns, i, x);
  }

  lemma RowDrawn(cells: seq<seq<char>>, columns: nat, i: nat, x: nat)
    requires Rectangle(cells, |cells|, columns) && i < |cells| && 5 <= x <= 6 + 6 * columns
    ensures Drawn(cells, columns, 2 * i + 1, x) == RowChar(cells[i], x)
  {
  }

  lemma BorderDrawn(cells: seq<seq<char>>, columns: nat, i: nat, x: nat)
    requires Rectangle(cells, |cells|, columns) && i < |cells| && x <= 6 + 6 * columns
    ensures Drawn(cells, columns, 2 * i + 2, x) == if i == |cells| - 1 && (x == 5 || x == 5 + 6 * columns) then '*'
                                                   else RowChar(cells[i], 7 + 6 * columns + x)
  {
  }

  lemma TopLine(frame: string, symbol: char, opponent: char, header: string, cells: seq<seq<char>>, columns: nat, x: nat)
    requires Drawable(cells, columns) && x <= 6 + 6 * columns && header == Header(symbol, opponent, columns)
    requires |header| == 50 + 12 * columns <= |frame| && forall k :: 0 <= k < |header| ==> frame[k] == header[k]
    ensures var at := 43 + 6 * columns + x; at < |frame| && frame[at] == Drawn(cells, columns, 0, x)
  {
    TopAt(columns, x);
    LabelsLength(columns);
    assert header[43 + 6 * columns + x] == TopBorder(columns)[x];
  }

  /** The number left of row i reads i + 1. */
  lemma RowNumber(symbol: char, opponent: char, cells: seq<seq<char>>, columns: nat, messages: seq<string>, i: nat)
    requires Drawable(cells, columns) && i < |cells|
    ensures var frame, at := Frame(symbol, opponent, cells, columns, messages), LineStart(columns, 2 * i + 1);
            |frame| >= at + 5 && Reads(frame[at..at + 3], i + 1) && frame[at + 3..at + 5] == "  "
  {
    var header, body := Parts(symbol, opponent, cells, columns, messages);
    NumberOfRow(Frame(symbol, opponent, cells, columns, messages), header, body, cells, columns, i);
  }

  lemma NumberOfRow(frame: string, header: string, body: string, cells: seq<seq<char>>, columns: nat, i: nat)
    requires Framed(frame, header, body, columns) && RowsIn(body, cells, columns) && i < |cells| <= 999
    ensures var at := LineStart(columns, 2 * i + 1);
            |frame| >= at + 5 && Reads(frame[at..at + 3], i + 1) && frame[at + 3..at + 5] == "  "
  {
    LineStarts(columns, i);
    var at, number := LineStart(columns, 2 * i + 1), RowLabel(i + 1);
    LabelLength(i + 1);
    FrameRow(frame, header, body, cells, columns, i, 4);
    forall k | 0 <= k < 5 ensures frame[at + k] == number[k] {
      FrameRow(frame, header, body, cells, columns, i, k);
    }
    PadReads(i + 1, 3);
    LabelHere(frame, at, number, i + 1);
  }

  lemma LabelHere(frame: string, at: nat, number: string, n: nat)
    requires |frame| >= at + 5 && |number| == 5 && number == RowLabel(n) && Reads(Pad(Decimal(n), 3), n)
    requires forall k :: 0 <= k < 5 ==> frame[at + k] == number[k]
    ensures Reads(frame[at..at + 3], n) && frame[at + 3..at + 5] == "  "
  {
    assert frame[at..at + 3] == number[..3] == Pad(Decimal(n), 3);
    assert frame[at + 3..at + 5] == number[3..] == Spaces(2);
  }
}
