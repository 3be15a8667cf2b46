/** The messages in a frame, and that the number a player types is the one printed above the
    column where the disc lands. */
module FramePrompt {
  import opened Messages
  import opened Grid
  import opened FrameText
  import opened FramePieces
  import opened FrameReading
  import opened Replica

  // ----- The messages

  /** The bytes of the first `k` messages: with more than one, each ends its line. */
  function After(messages: seq<string>, k: nat): nat
    requires k <= |messages|
  {
    if k == 0 then 0 else After(messages, k - 1) + |messages[k - 1]| + if |messages| > 1 then 1 else 0
  }

  lemma {:induction false} LinesAt(messages: seq<string>, n: nat, k: nat)
    requires k < n <= |messages|
    ensures |Lines(messages, k)| == After(messages, k) && |Lines(messages, n)| == After(messages, n)
    ensures After(messages, k + 1) <= After(messages, n)
    ensures var at, line := After(messages, k), messages[k]; Lines(messages, n)[at..at + |line|] == line
    ensures |messages| > 1 ==> Lines(messages, n)[After(messages, k + 1) - 1] == '\n'
  {
    var at, line := After(messages, k), messages[k];
    if k < n - 1 {
      LinesAt(messages, n - 1, k);
      assert Lines(messages, n)[at..at + |line|] == Lines(messages, n - 1)[at..at + |line|];
    } else if k > 0 {
      LinesAt(messages, n - 1, k - 1);
    }
  }

  /** Every message is found behind the drawing and an empty line, in order, byte for byte;
      with none, the frame ends with the drawing. */
  lemma MessagesRead(symbol: char, opponent: char, cells: seq<seq<char>>, columns: nat, messages: seq<string>)
    requires Drawable(cells, columns)
    ensures Followed(Frame(symbol, opponent, cells, columns, messages), LineStart(columns, 2 * |cells| + 1), messages)
  {
    var text := Drawing(symbol, opponent, cells, columns, messages);
    SuffixRead(Frame(symbol, opponent, cells, columns, messages), text, Suffix(messages), messages);
  }

  lemma Drawing(symbol: char, opponent: char, cells: seq<seq<char>>, columns: nat, messages: seq<string>) returns (text: string)
    requires Drawable(cells, columns)
    ensures |text| == LineStart(columns, 2 * |cells| + 1)
    ensures Frame(symbol, opponent, cells, columns, messages) == text + Suffix(messages)
  {
    FrameParts(symbol, opponent, cells, columns, messages);
    HeaderLength(symbol, opponent, columns);
    BodyLong(cells, |cells|, columns);
    LineStarts(columns, |cells|);
    text := FixUp(Header(symbol, opponent, columns) + Body(cells, |cells|), columns);
  }

  lemma SuffixRead(frame: string, text: string, suffix: string, messages: seq<string>)
    requires frame == text + suffix && suffix == Suffix(messages)
    ensures Followed(frame, |text|, messages)
  {
    if messages != [] {
      var lines := LinesRead(messages);
      var first := |text| + 1;
      forall k: nat | k < |messages| ensures MessageIn(frame, first, messages, k) {
        MessageHere(frame, text, lines, messages, k);
      }
    }
  }

  lemma LinesRead(messages: seq<string>) returns (lines: string)
    requires messages != []
    ensures Suffix(messages) == "\n" + lines && |lines| == After(messages, |messages|)
    ensures forall k: nat :: k < |messages| ==> MessageIn(lines, 0, messages, k)
  {
    lines := Lines(messages, |messages|);
    LinesAt(messages, |messages|, |messages| - 1);
    forall k: nat | k < |messages| ensures MessageIn(lines, 0, messages, k) {
      LinesAt(messages, |messages|, k);
    }
  }

  /** Message `k` is found in the text, the first message at `start`. */
  predicate MessageIn(frame: string, start: nat, messages: seq<string>, k: nat)
    requires k < |messages|
  {
    var at, message := start + After(messages, k), messages[k];
    && at + |message| <= |frame| && (forall c :: 0 <= c < |message| ==> frame[at + c] == message[c])
    && (|messages| > 1 ==> at + |message| < |frame| && frame[at + |message|] == '\n')
  }

  /** Behind position `n` there is nothing, or an empty line and then the messages. */
  ghost predicate Followed(frame: string, n: nat, messages: seq<string>) {
    var first := n + 1;
    if messages == [] then |frame| == n
    else
      && |frame| == first + After(messages, |messages|) && frame[n] == '\n'
      && forall k: nat :: k < |messages| ==> MessageIn(frame, first, messages, k)
  }

  lemma MessageHere(frame: string, text: string, lines: string, messages: seq<string>, k: nat)
    requires k < |messages| && MessageIn(lines, 0, messages, k) && frame == text + ("\n" + lines)
    ensures MessageIn(frame, |text| + 1, messages, k)
  {
    assert forall c :: 0 <= c < |lines| ==> frame[|text| + 1 + c] == lines[c];
  }

  // ----- The number typed and the column

  lemma NumberTyped(inputs: seq<Input>, columns: nat, k: Int32) returns (i: nat)
    requires columns < 0x8000_0000 && FirstAnswer(inputs, columns, false) == Some(Column(k))
    ensures i < |inputs| && inputs[i] == Number(k + 1) && 0 <= k < columns
  {
    i := AnswerMeans(inputs, columns, false);
  }

  /** The number that a frame shows above column `k`. */
  ghost predicate NumberAbove(frame: string, k: nat, n: int) {
    |frame| >= 46 + 6 * k && Reads(frame[42 + 6 * k..46 + 6 * k], n)
  }

  /** The character on line `row` of the board under the last digit of that number. */
  predicate UnderNumber(frame: string, columns: nat, row: int, k: nat, symbol: char) {
    row >= 0 && var at := LineStart(columns, 2 * row + 1) + (45 + 6 * k - 37); at < |frame| && frame[at] == symbol
  }

  lemma LabelAbove(own: char, opponent: char, cells: seq<seq<char>>, columns: nat, messages: seq<string>, k: nat)
    requires Drawable(cells, columns) && k < columns
    ensures NumberAbove(Frame(own, opponent, cells, columns, messages), k, k + 1)
  {
    ColumnNumber(own, opponent, cells, columns, messages, k);
  }

  lemma CellUnder(own: char, opponent: char, cells: seq<seq<char>>, columns: nat, messages: seq<string>, i: nat, j: nat)
    requires Drawable(cells, columns) && i < |cells| && j < columns
    ensures UnderNumber(Frame(own, opponent, cells, columns, messages), columns, i, j, cells[i][j])
  {
    var at := Offset(columns, i, j);
    LineStarts(columns, i);
    CellAtOffset(own, opponent, cells, columns, messages, i, j);
    UnderAt(Frame(own, opponent, cells, columns, messages), columns, i, j, cells[i][j], at);
  }

  lemma UnderAt(frame: string, columns: nat, i: nat, j: nat, c: char, at: nat)
    requires at < |frame| && frame[at] == c && at == LineStart(columns, 2 * i + 1) + 8 + 6 * j
    ensures UnderNumber(frame, columns, i, j, c)
  {
  }

  /** The board after a drop is drawable, and has the disc where it landed. */
  lemma DropDrawable(b: Board, k: nat, symbol: char)
    requires Valid(b) && Drawable(b.cells, b.columns) && symbol != BLANK && k < b.columns && HasRoom(b, k)
    ensures var Dropped(board, row) := Drop(b, k, symbol);
            && Drawable(board.cells, b.columns) && 0 <= row < |board.cells| && board.cells[row][k] == symbol
  {
    DropMeaning(b, k, symbol);
  }

  lemma DiscUnder(b: Board, k: nat, symbol: char, own: char, opponent: char, messages: seq<string>)
    requires Valid(b) && Drawable(b.cells, b.columns) && symbol != BLANK && k < b.columns && HasRoom(b, k)
    ensures DiscShown(b, k, symbol, own, opponent, messages)
  {
    DropDrawable(b, k, symbol);
    var Dropped(board, row) := Drop(b, k, symbol);
    CellUnder(own, opponent, board.cells, b.columns, messages, row, k);
  }

  /** The frame of the board after the drop has the disc under the column's number. */
  ghost predicate DiscShown(b: Board, k: nat, symbol: char, own: char, opponent: char, messages: seq<string>)
    requires Valid(b) && k < 0x8000_0000
  {
    var Dropped(board, row) := Drop(b, k, symbol);
    Drawable(board.cells, b.columns) && UnderNumber(Frame(own, opponent, board.cells, b.columns, messages), b.columns, row, k, symbol)
  }

  /** If the player's answer is a column, the number typed is the one printed above it, and a
      disc dropped by that move is shown in the next frame under that number's last digit, in
      the row where it landed. */
  lemma TypedIsLabel(inputs: seq<Input>, k: Int32, b: Board, own: char, opponent: char, before: seq<string>, after: seq<string>, symbol: char)
    returns (i: nat)
    requires Valid(b) && Drawable(b.cells, b.columns) && symbol != BLANK
    requires FirstAnswer(inputs, b.columns, false) == Some(Column(k))
    ensures i < |inputs| && inputs[i].Number? && 0 <= k < b.columns
    ensures NumberAbove(Frame(own, opponent, b.cells, b.columns, before), k, inputs[i].n)
    ensures HasRoom(b, k) ==> DiscShown(b, k, symbol, own, opponent, after)
  {
    i := NumberTyped(inputs, b.columns, k);
    LabelAbove(own, opponent, b.cells, b.columns, before, k);
    if HasRoom(b, k) { DiscUnder(b, k, symbol, own, opponent, after); }
  }
}
