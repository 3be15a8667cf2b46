/** The frame printer: the text that `client_render` writes into its buffer. */
module FrameText {
  import opened Grid

  const BUFFER_SIZE := 2048
  const SEPARATOR := "-----+"

  // ----- The pieces of the text

  function Spaces(n: nat): (s: string)
    ensures |s| == n
  {
    seq(n, i => ' ')
  }

  /** A conversion with a field width: padded on the left. */
  function Pad(s: string, width: nat): (p: string)
    ensures |p| == if |s| < width then width else |s|
  {
    if |s| < width then Spaces(width - |s|) + s else s
  }

  function Decimal(n: nat): string {
    if n < 10 then [('0' as int + n) as char] else Decimal(n / 10) + [('0' as int + n % 10) as char]
  }

  function Hud(symbol: char, opponent: char): (s: string)
    ensures |s| == 37
  {
    "Giocatore: " + [symbol] + "  ------- Avversario: " + [opponent] + "\n\n"
  }

  function Label(i: nat): string { Pad(Decimal(i), 4) + Spaces(2) }

  /** The numbers above the first `n` columns. */
  function Labels(n: nat): string { if n == 0 then "" else Labels(n - 1) + Label(n) }

  function Separators(n: nat): (s: string)
    ensures |s| == 6 * n
  {
    if n == 0 then "" else Separators(n - 1) + SEPARATOR
  }

  /** The first `n` cells of a row. */
  function Cells(row: seq<char>, n: nat): (s: string)
    requires n <= |row|
    ensures |s| == 6 * n
  {
    if n == 0 then "" else Cells(row, n - 1) + ("|" + Spaces(2) + [row[n - 1]] + Spaces(2))
  }

  function RowLabel(i: nat): string { Pad(Decimal(i), 3) + Spaces(2) }

  function TopBorder(columns: nat): (s: string)
    requires columns > 0
    ensures |s| == 7 + 6 * columns
  {
    Spaces(5) + "*" + Separators(columns)[6 * columns - 1 := '*'] + "\n"
  }

  function Header(symbol: char, opponent: char, columns: nat): string
    requires columns > 0
  {
    Hud(symbol, opponent) + Spaces(5) + Labels(columns) + "\n" + TopBorder(columns)
  }

  function RowText(i: nat, row: seq<char>): string {
    RowLabel(i + 1) + Cells(row, |row|) + "|\n" + Spaces(5) + "|" + Separators(|row|) + "\n"
  }

  /** The first `n` rows. */
  function Body(cells: seq<seq<char>>, n: nat): string
    requires n <= |cells|
  {
    if n == 0 then "" else Body(cells, n - 1) + RowText(n - 1, cells[n - 1])
  }

  /** The two corners of the bottom border, written last. */
  function FixUp(s: string, columns: nat): string
    requires |s| >= 6 * columns + 2
  {
    s[|s| - 2 := '*'][|s| - 6 * columns - 2 := '*']
  }

  function Suffix(messages: seq<string>): string {
    if messages == [] then "" else "\n" + Lines(messages, |messages|)
  }

  function Lines(messages: seq<string>, n: nat): string
    requires n <= |messages|
  {
    if n == 0 then ""
    else Lines(messages, n - 1) + messages[n - 1] + if |messages| > 1 then "\n" else ""
  }

  function BodyText(symbol: char, opponent: char, cells: seq<seq<char>>, columns: nat): string
    requires columns > 0
  {
    Header(symbol, opponent, columns) + Body(cells, |cells|)
  }

  function Frame(symbol: char, opponent: char, cells: seq<seq<char>>, columns: nat, messages: seq<string>): string
    requires columns > 0 && cells != [] && |cells[0]| == columns && Rectangle(cells, |cells|, columns)
  {
    BodyLong(cells, |cells|, columns);
    FixUp(BodyText(symbol, opponent, cells, columns), columns) + Suffix(messages)
  }

  // ----- Lengths

  function Pow10(k: nat): nat { if k == 0 then 1 else 10 * Pow10(k - 1) }

  /** A number has at most `k` digits exactly when it is below 10^k. */
  lemma {:induction false} Digits(n: nat, k: nat)
    requires k >= 1
    ensures |Decimal(n)| <= k <==> n < Pow10(k)
    ensures |Decimal(n)| >= 1
  {
    if k == 1 {
      if n >= 10 { Digits(n / 10, 1); }
      assert Pow10(1) == 10 * Pow10(0);
    } else if n >= 10 {
      Digits(n / 10, k - 1);
    } else {
      PowGrows(k);
    }
  }

  lemma {:induction false} PowGrows(k: nat)
    requires k >= 1
    ensures Pow10(k) >= 10
  {
    if k == 1 {
    } else {
      PowGrows(k - 1);
    }
  }

  lemma LabelLength(i: nat)
    ensures |Label(i)| >= 6 && (|Label(i)| == 6 <==> i <= 9999)
    ensures |RowLabel(i)| >= 5 && (|RowLabel(i)| == 5 <==> i <= 999)
  {
    Digits(i, 3);
    Digits(i, 4);
    assert Pow10(4) == 10 * Pow10(3) && Pow10(3) == 10 * Pow10(2) && Pow10(2) == 10 * Pow10(1) && Pow10(1) == 10;
  }

  lemma {:induction false} LabelsLength(n: nat)
    ensures |Labels(n)| >= 6 * n && (|Labels(n)| == 6 * n <==> n <= 9999)
  {
    if n == 0 {
    } else {
      LabelsLength(n - 1);
      LabelLength(n);
    }
  }

  function RowWidth(columns: nat): nat { 14 + 12 * columns }

  lemma {:induction false} BodyLong(cells: seq<seq<char>>, n: nat, columns: nat)
    requires n <= |cells| && Rectangle(cells, |cells|, columns)
    ensures |Body(cells, n)| >= Start(columns, n)
    ensures n >= 1 ==> |Body(cells, n)| >= 14 + 12 * columns
    ensures |Body(cells, n)| == Start(columns, n) <==> n <= 999
  {
    if n == 0 {
    } else {
      BodyLong(cells, n - 1, columns);
      LabelLength(n);
      assert |RowText(n - 1, cells[n - 1])| == |RowLabel(n)| + 9 + 12 * columns;
    }
  }

  /** Where row `i` begins below the header. */
  function Start(columns: nat, i: nat): nat { if i == 0 then 0 else Start(columns, i - 1) + RowWidth(columns) }

  lemma {:induction false} StartIs(columns: nat, i: nat)
    ensures Start(columns, i) == i * (14 + 12 * columns)
  {
    if i == 0 {
    } else {
      StartIs(columns, i - 1);
      assert i * (14 + 12 * columns) == (i - 1) * (14 + 12 * columns) + (14 + 12 * columns);
    }
  }

  function FrameLength(rows: nat, columns: nat): nat { 50 + 14 * rows + 12 * columns * (rows + 1) }

  lemma HeaderLength(symbol: char, opponent: char, columns: nat)
    requires columns > 0
    ensures |Header(symbol, opponent, columns)| >= 50 + 12 * columns
    ensures |Header(symbol, opponent, columns)| == 50 + 12 * columns <==> columns <= 9999
  {
    LabelsLength(columns);
  }

  /** Without messages the frame has 50 + 14*rows + 12*columns*(rows+1) bytes exactly
      when there are at most 999 rows and 9999 columns. */
  lemma ExactLength(symbol: char, opponent: char, cells: seq<seq<char>>, columns: nat)
    requires columns > 0 && cells != [] && |cells[0]| == columns && Rectangle(cells, |cells|, columns)
    ensures var frame := Frame(symbol, opponent, cells, columns, []);
            && |frame| >= FrameLength(|cells|, columns)
            && (|frame| == FrameLength(|cells|, columns) <==> |cells| <= 999 && columns <= 9999)
  {
    var rows := |cells|;
    HeaderLength(symbol, opponent, columns);
    BodyLong(cells, rows, columns);
    LengthSplit(rows, columns);
  }

  lemma LengthSplit(rows: nat, columns: nat)
    ensures FrameLength(rows, columns) == 50 + 12 * columns + Start(columns, rows)
  {
    StartIs(columns, rows);
    assert 12 * columns * (rows + 1) == 12 * columns * rows + 12 * columns;
    assert rows * (14 + 12 * columns) == 14 * rows + 12 * columns * rows;
  }

  // ----- Reading the board back

  function Offset(columns: nat, i: nat, j: nat): nat { 58 + 12 * columns + Start(columns, i) + 6 * j }

  lemma OffsetIs(columns: nat, i: nat, j: nat)
    ensures Offset(columns, i, j) == 58 + 12 * columns + i * (14 + 12 * columns) + 6 * j
  {
    StartIs(columns, i);
  }

  lemma {:induction false} CellInRow(row: seq<char>, n: nat, j: nat)
    requires j < n <= |row|
    ensures Cells(row, n)[6 * j + 3] == row[j]
  {
    if j == n - 1 {
    } else {
      CellInRow(row, n - 1, j);
    }
  }

  lemma CellInRowText(i: nat, row: seq<char>, j: nat, k: nat)
    requires i < 999 && j < |row| && k == 8 + 6 * j
    ensures |RowText(i, row)| == RowWidth(|row|) && RowText(i, row)[k] == row[j]
  {
    LabelLength(i + 1);
    CellInRow(row, |row|, j);
    assert RowText(i, row)[k] == Cells(row, |row|)[k - 5];
  }

  lemma Appended(s: string, t: string, k: nat)
    ensures k < |s| ==> (s + t)[k] == s[k]
    ensures k < |t| ==> (s + t)[|s| + k] == t[k]
  {
  }

  lemma BodySnoc(cells: seq<seq<char>>, n: nat, text: string)
    requires n < |cells| && text == RowText(n, cells[n])
    ensures Body(cells, n + 1) == Body(cells, n) + text
  {
  }

  lemma {:induction false} RowInBody(cells: seq<seq<char>>, n: nat, i: nat, k: nat, at: nat, c: char)
    requires i < n <= |cells| && k < |RowText(i, cells[i])| && at == |Body(cells, i)| + k && c == RowText(i, cells[i])[k]
    ensures at < |Body(cells, n)| && Body(cells, n)[at] == c
    decreases n
  {
    var before, text := Body(cells, n - 1), RowText(n - 1, cells[n - 1]);
    BodySnoc(cells, n - 1, text);
    if i < n - 1 {
      RowInBody(cells, n - 1, i, k, at, c);
      Appended(before, text, at);
    } else {
      Appended(before, text, k);
    }
  }

  lemma CellInBody(cells: seq<seq<char>>, n: nat, columns: nat, i: nat, j: nat, at: nat)
    requires i < n <= |cells| && n <= 999 && Rectangle(cells, |cells|, columns) && j < columns
    requires at == Start(columns, i) + 8 + 6 * j
    ensures at < |Body(cells, n)| && Body(cells, n)[at] == cells[i][j]
  {
    BodyLong(cells, i, columns);
    var k := 8 + 6 * j;
    CellInRowText(i, cells[i], j, k);
    RowInBody(cells, n, i, k, at, cells[i][j]);
  }

  /** Cell (i, j) is at its offset, whatever messages follow the board. */
  lemma CellAtOffset(symbol: char, opponent: char, cells: seq<seq<char>>, columns: nat, messages: seq<string>, i: nat, j: nat)
    requires columns > 0 && cells != [] && |cells[0]| == columns && Rectangle(cells, |cells|, columns)
    requires |cells| <= 999 && columns <= 9999 && i < |cells| && j < columns
    ensures var frame := Frame(symbol, opponent, cells, columns, messages);
            Offset(columns, i, j) < |frame| && frame[Offset(columns, i, j)] == cells[i][j]
  {
    var rows, at := |cells|, Start(columns, i) + 8 + 6 * j;
    var header, body := Header(symbol, opponent, columns), Body(cells, rows);
    HeaderLength(symbol, opponent, columns);
    BodyLong(cells, rows, columns);
    CellInBody(cells, rows, columns, i, j, at);
    StartBelow(columns, i, rows);
    FixUpKeeps(header, body, Suffix(messages), columns, at, Offset(columns, i, j));
    FrameParts(symbol, opponent, cells, columns, messages);
  }

  lemma FrameParts(symbol: char, opponent: char, cells: seq<seq<char>>, columns: nat, messages: seq<string>)
    requires columns > 0 && cells != [] && |cells[0]| == columns && Rectangle(cells, |cells|, columns)
    ensures var text := Header(symbol, opponent, columns) + Body(cells, |cells|);
            |text| >= 6 * columns + 2 && Frame(symbol, opponent, cells, columns, messages) == FixUp(text, columns) + Suffix(messages)
  {
    BodyLong(cells, |cells|, columns);
  }

  /** The two corner writes miss everything before the last border. */
  lemma FixUpKeeps(header: string, body: string, suffix: string, columns: nat, at: nat, offset: nat)
    requires |body| >= 14 + 12 * columns && at < |body| - 6 * columns - 2 && offset == |header| + at
    ensures var frame := FixUp(header + body, columns) + suffix; offset < |frame| && frame[offset] == body[at]
  {
    assert (header + body)[offset] == body[at];
  }

  lemma {:induction false} StartBelow(columns: nat, i: nat, rows: nat)
    requires i < rows
    ensures Start(columns, i) + RowWidth(columns) <= Start(columns, rows)
  {
    if i == rows - 1 {
    } else {
      StartBelow(columns, i, rows - 1);
    }
  }

  /** The board read back from a frame. */
  function ReadBack(frame: string, rows: nat, columns: nat): seq<seq<char>>
  {
    seq(rows, i requires 0 <= i < rows => seq(columns, j requires 0 <= j < columns => CharAt(frame, Offset(columns, i, j))))
  }

  function CharAt(s: string, at: nat): char { if at < |s| then s[at] else BLANK }

  /** The frame printer is invertible. */
  lemma FrameInvertible(symbol: char, opponent: char, cells: seq<seq<char>>, columns: nat, messages: seq<string>)
    requires columns > 0 && cells != [] && |cells[0]| == columns && Rectangle(cells, |cells|, columns)
    requires |cells| <= 999 && columns <= 9999
    ensures ReadBack(Frame(symbol, opponent, cells, columns, messages), |cells|, columns) == cells
  {
    var frame := Frame(symbol, opponent, cells, columns, messages);
    var back := ReadBack(frame, |cells|, columns);
    forall i | 0 <= i < |cells| ensures back[i] == cells[i] {
      forall j | 0 <= j < columns ensures back[i][j] == cells[i][j] {
        CellAtOffset(symbol, opponent, cells, columns, messages, i, j);
      }
    }
  }
}
