/** The Connect Four board as a value: the matrix, the height index of each
    column, the gravity drop and the win condition. */
module Grid {
  import opened Messages

  const BLANK := ' '
  const WIN_SEQUENCE_SIZE := 4
  const TWO32 := 0x1_0000_0000
  const TWO64 := 0x1_0000_0000_0000_0000

  datatype Board = Board(rows: nat, columns: nat, cells: seq<seq<char>>, rowsIndex: seq<nat>)

  /** Dimensions that the argument parser lets through (they are `int32_t`). */
  predicate GoodSize(rows: int, columns: int) {
    4 <= rows < 0x8000_0000 && 4 <= columns < 0x8000_0000
  }

  predicate Rectangle(cells: seq<seq<char>>, rows: nat, columns: nat) {
    |cells| == rows && forall i :: 0 <= i < rows ==> |cells[i]| == columns
  }

  ghost predicate Shape(b: Board) {
    && GoodSize(b.rows, b.columns)
    && Rectangle(b.cells, b.rows, b.columns)
    && |b.rowsIndex| == b.columns
    && forall c :: 0 <= c < b.columns ==> b.rowsIndex[c] <= b.rows
  }

  /** Representation invariant: in every column the cells above the height index
      are blank and the cells at it or below are occupied. */
  ghost predicate Valid(b: Board) {
    && Shape(b)
    && forall i, c :: 0 <= i < b.rows && 0 <= c < b.columns ==>
                        (b.cells[i][c] == BLANK <==> i < b.rowsIndex[c])
  }

  function BlankCells(rows: nat, columns: nat): (cells: seq<seq<char>>)
    ensures Rectangle(cells, rows, columns)
    ensures forall i, j :: 0 <= i < rows && 0 <= j < columns ==> cells[i][j] == BLANK
  {
    seq(rows, i => seq(columns, j => BLANK))
  }

  /** The cells that a matrix holds. */
  ghost function CellsOfMatrix(matrix: array2<char>): (cells: seq<seq<char>>)
    reads matrix
    ensures Rectangle(cells, matrix.Length0, matrix.Length1)
    ensures forall i, j :: 0 <= i < matrix.Length0 && 0 <= j < matrix.Length1 ==> cells[i][j] == matrix[i, j]
  {
    seq(matrix.Length0, i requires 0 <= i < matrix.Length0 reads matrix =>
      seq(matrix.Length1, j requires 0 <= j < matrix.Length1 reads matrix => matrix[i, j]))
  }

  function Init(rows: nat, columns: nat): Board {
    Board(rows, columns, BlankCells(rows, columns), seq(columns, c => rows))
  }

  /** The conversion of an `int32_t` move to the `size_t` column index. */
  function SizeT(move: Int32): int { if move < 0 then move + TWO64 else move }

  /** Unsigned 32-bit subtraction. */
  function Sub32(a: int, b: int): int { (a - b) % TWO32 }

  function Put(cells: seq<seq<char>>, row: int, column: int, symbol: char): seq<seq<char>>
  {
    if 0 <= row < |cells| && 0 <= column < |cells[row]|
    then cells[row := cells[row][column := symbol]]
    else cells
  }

  ghost predicate Refused(b: Board, move: Int32)
    requires Shape(b)
  {
    SizeT(move) > Sub32(b.columns, 1) || b.rowsIndex[SizeT(move)] == 0
  }

  datatype Dropped = Dropped(board: Board, row: int)

  /** The drop: the new board and the row of the disc, or -1 if refused. */
  ghost function Drop(b: Board, move: Int32, symbol: char): Dropped
    requires Shape(b)
  {
    if Refused(b, move) then Dropped(b, -1)
    else
      var row := b.rowsIndex[move] - 1;
      Dropped(b.(cells := Put(b.cells, row, move, symbol), rowsIndex := b.rowsIndex[move := row]), row)
  }

  /** Whether column `c` can take another disc. */
  predicate HasRoom(b: Board, c: int)
    requires Rectangle(b.cells, b.rows, b.columns) && b.rows > 0
  {
    0 <= c < b.columns && b.cells[0][c] == BLANK
  }

  // ----- What a drop does

  lemma InitValid(rows: nat, columns: nat)
    requires GoodSize(rows, columns)
    ensures Valid(Init(rows, columns))
    ensures Filled(Init(rows, columns)) == 0
    ensures Occupied(Init(rows, columns)) == {}
  {
    Filled0(Init(rows, columns), columns);
  }

  /** A drop is accepted exactly when the column exists and has a blank top cell.
      The disc lands on a blank cell with nothing but occupied cells under it, and
      no other cell changes; a refused drop changes nothing. */
  lemma DropMeaning(b: Board, move: Int32, symbol: char)
    requires Valid(b) && symbol != BLANK
    ensures var Dropped(b', row) := Drop(b, move, symbol);
            && Valid(b') && b'.rows == b.rows && b'.columns == b.columns
            && (row >= 0 <==> HasRoom(b, move))
            && (row < 0 ==> row == -1 && b' == b)
            && (row >= 0 ==>
                  && row < b.rows && b.cells[row][move] == BLANK
                  && (forall i :: row < i < b.rows ==> b.cells[i][move] != BLANK)
                  && b'.cells == Put(b.cells, row, move, symbol)
                  && (forall i, j :: 0 <= i < b.rows && 0 <= j < b.columns ==>
                        b'.cells[i][j] == if i == row && j == move then symbol else b.cells[i][j]))
  {
    var Dropped(b', row) := Drop(b, move, symbol);
    if row >= 0 {
      assert move < b.columns && b.cells[row][move] == BLANK;
      assert HasRoom(b, move);
    }
  }

  // ----- Counting

  /** The number of discs according to the height index of the first `n` columns. */
  ghost function FilledTo(b: Board, n: nat): int
    requires n <= |b.rowsIndex|
  {
    if n == 0 then 0 else FilledTo(b, n - 1) + (b.rows - b.rowsIndex[n - 1])
  }

  ghost function Filled(b: Board): int { FilledTo(b, |b.rowsIndex|) }

  ghost function Occupied(b: Board): set<(int, int)>
    requires Rectangle(b.cells, b.rows, b.columns)
  {
    set i, j | 0 <= i < b.rows && 0 <= j < b.columns && b.cells[i][j] != BLANK :: (i, j)
  }

  ghost function CellsOf(b: Board, symbol: char): set<(int, int)>
    requires Rectangle(b.cells, b.rows, b.columns)
  {
    set i, j | 0 <= i < b.rows && 0 <= j < b.columns && b.cells[i][j] == symbol :: (i, j)
  }

  ghost predicate Full(b: Board)
    requires Rectangle(b.cells, b.rows, b.columns)
  {
    forall i, j :: 0 <= i < b.rows && 0 <= j < b.columns ==> b.cells[i][j] != BLANK
  }

  lemma {:induction false} Filled0(b: Board, n: nat)
    requires n <= |b.rowsIndex| && forall c :: 0 <= c < |b.rowsIndex| ==> b.rowsIndex[c] == b.rows
    ensures FilledTo(b, n) == 0
  {
    if n == 0 {
    } else {
      Filled0(b, n - 1);
    }
  }

  lemma {:induction false} FilledStep(b: Board, b': Board, c: nat, n: nat)
    requires n <= |b.rowsIndex| && c < |b.rowsIndex| && b'.rows == b.rows && b.rowsIndex[c] > 0
    requires b'.rowsIndex == b.rowsIndex[c := b.rowsIndex[c] - 1]
    ensures FilledTo(b', n) == FilledTo(b, n) + if c < n then 1 else 0
  {
    if n == 0 {
    } else {
      FilledStep(b, b', c, n - 1);
    }
  }

  lemma {:induction false} FilledBound(b: Board, n: nat)
    requires Shape(b) && n <= b.columns
    ensures 0 <= FilledTo(b, n) <= n * b.rows
    ensures FilledTo(b, n) == n * b.rows <==> forall c :: 0 <= c < n ==> b.rowsIndex[c] == 0
  {
    if n == 0 {
    } else {
      FilledBound(b, n - 1);
      assert n * b.rows == (n - 1) * b.rows + b.rows;
    }
  }

  /** The occupied cells of the first `n` columns. */
  ghost function OccupiedTo(b: Board, n: nat): set<(int, int)>
    requires Shape(b) && n <= b.columns
  {
    set i, j | 0 <= i < b.rows && 0 <= j < n && b.cells[i][j] != BLANK :: (i, j)
  }

  /** The cells of column `c` from row `from` down. */
  ghost function Tail(rows: nat, c: int, from: nat): set<(int, int)> {
    set i | from <= i < rows :: (i, c)
  }

  lemma {:induction false} TailSize(rows: nat, c: int, from: nat)
    requires from <= rows
    ensures |Tail(rows, c, from)| == rows - from
    decreases rows - from
  {
    if from < rows {
      TailSize(rows, c, from + 1);
      assert Tail(rows, c, from) == Tail(rows, c, from + 1) + {(from as int, c)};
    } else {
      assert Tail(rows, c, from) == {};
    }
  }

  lemma ColumnSplit(b: Board, n: nat, column: set<(int, int)>)
    requires Valid(b) && 0 < n <= b.columns && column == Tail(b.rows, n - 1, b.rowsIndex[n - 1])
    ensures OccupiedTo(b, n) == OccupiedTo(b, n - 1) + column && OccupiedTo(b, n - 1) !! column
  {
    forall i, j | 0 <= i < b.rows && j == n - 1 ensures (i, j) in OccupiedTo(b, n) <==> (i, j) in column {}
  }

  lemma {:induction false} OccupiedToSize(b: Board, n: nat)
    requires Valid(b) && n <= b.columns
    ensures |OccupiedTo(b, n)| == FilledTo(b, n)
  {
    if n == 0 {
      assert OccupiedTo(b, 0) == {};
    } else {
      OccupiedToSize(b, n - 1);
      OccupiedNext(b, n);
    }
  }

  lemma OccupiedNext(b: Board, n: nat)
    requires Valid(b) && 0 < n <= b.columns
    ensures |OccupiedTo(b, n)| == |OccupiedTo(b, n - 1)| + (b.rows - b.rowsIndex[n - 1])
  {
    var column := Tail(b.rows, n - 1, b.rowsIndex[n - 1]);
    TailSize(b.rows, n - 1, b.rowsIndex[n - 1]);
    ColumnSplit(b, n, column);
  }

  lemma FullMeansNoRoom(b: Board)
    requires Valid(b)
    ensures Full(b) <==> forall c :: 0 <= c < b.columns ==> b.rowsIndex[c] == 0
    ensures Full(b) <==> forall c :: !HasRoom(b, c)
  {
    forall c | 0 <= c < b.columns ensures HasRoom(b, c) <==> b.rowsIndex[c] > 0 {}
    if Full(b) {
      forall c | 0 <= c < b.columns ensures b.rowsIndex[c] == 0 {
        assert b.cells[0][c] != BLANK;
      }
    }
    if forall c :: !HasRoom(b, c) {
      forall c | 0 <= c < b.columns ensures b.rowsIndex[c] == 0 {
        assert !HasRoom(b, c);
      }
    }
    if forall c :: 0 <= c < b.columns ==> b.rowsIndex[c] == 0 {
      forall i, j | 0 <= i < b.rows && 0 <= j < b.columns ensures b.cells[i][j] != BLANK {
        assert b.rowsIndex[j] == 0;
      }
      assert Full(b);
    }
  }

  /** Counter agreement, for every board that keeps the representation invariant:
      the sum over the height index is the number of occupied cells; it is at most
      the number of cells, and reaches it exactly on the full board, which is also
      when no column can take a disc. */
  lemma CounterAgreement(b: Board)
    requires Valid(b)
    ensures Filled(b) == |Occupied(b)|
    ensures 0 <= Filled(b) <= b.rows * b.columns
    ensures Filled(b) == b.rows * b.columns <==> Full(b)
    ensures Full(b) <==> forall c :: !HasRoom(b, c)
  {
    OccupiedToSize(b, b.columns);
    assert OccupiedTo(b, b.columns) == Occupied(b);
    FilledBound(b, b.columns);
    assert b.rows * b.columns == b.columns * b.rows;
    FullMeansNoRoom(b);
  }

  /** An accepted drop adds one disc of its own symbol and none of any other. */
  lemma DropCounts(b: Board, move: Int32, symbol: char, other: char)
    requires Valid(b) && symbol != BLANK && other != BLANK && other != symbol
    ensures var Dropped(b', row) := Drop(b, move, symbol);
            row >= 0 ==>
              && Rectangle(b'.cells, b'.rows, b'.columns)
              && Filled(b') == Filled(b) + 1
              && |CellsOf(b', symbol)| == |CellsOf(b, symbol)| + 1
              && CellsOf(b', other) == CellsOf(b, other)
  {
    var Dropped(b', row) := Drop(b, move, symbol);
    DropMeaning(b, move, symbol);
    if row >= 0 {
      FilledStep(b, b', move, b.columns);
      assert CellsOf(b', symbol) == CellsOf(b, symbol) + {(row, move)};
      assert (row, move) !in CellsOf(b, symbol);
    }
  }

  // ----- Four in line

  predicate Holds(b: Board, r: int, c: int, symbol: char)
    requires Rectangle(b.cells, b.rows, b.columns)
  {
    0 <= r < b.rows && 0 <= c < b.columns && b.cells[r][c] == symbol
  }

  /** Four cells in a row from (r, c) in one of the eight compass directions. */
  predicate Line(b: Board, symbol: char, r: int, c: int, dr: int, dc: int)
    requires Rectangle(b.cells, b.rows, b.columns)
  {
    && -1 <= dr <= 1 && -1 <= dc <= 1 && (dr != 0 || dc != 0)
    && Holds(b, r, c, symbol)
    && Holds(b, r + dr, c + dc, symbol)
    && Holds(b, r + 2 * dr, c + 2 * dc, symbol)
    && Holds(b, r + 3 * dr, c + 3 * dc, symbol)
  }

  ghost predicate FourInLine(b: Board, symbol: char)
    requires Rectangle(b.cells, b.rows, b.columns)
  {
    exists r, c, dr, dc :: Line(b, symbol, r, c, dr, dc)
  }

  /** Spelled out: four equal cells at equal steps along a row, a column or a diagonal. */
  lemma FourInLineMeans(b: Board, symbol: char)
    requires Rectangle(b.cells, b.rows, b.columns)
    ensures FourInLine(b, symbol) <==> exists r, c, dr, dc :: Steps(b, symbol, r, c, dr, dc)
  {
    forall r, c, dr, dc ensures Line(b, symbol, r, c, dr, dc) <==> Steps(b, symbol, r, c, dr, dc) {
      LineIsSteps(b, symbol, r, c, dr, dc);
    }
  }

  lemma LineIsSteps(b: Board, symbol: char, r: int, c: int, dr: int, dc: int)
    requires Rectangle(b.cells, b.rows, b.columns)
    ensures Line(b, symbol, r, c, dr, dc) <==> Steps(b, symbol, r, c, dr, dc)
  {
    if Steps(b, symbol, r, c, dr, dc) {
      assert SymbolAt(b.cells, Along(r, 0, dr), Along(c, 0, dc)).Some? && SymbolAt(b.cells, Along(r, 1, dr), Along(c, 1, dc)).Some?;
      assert SymbolAt(b.cells, Along(r, 2, dr), Along(c, 2, dc)).Some? && SymbolAt(b.cells, Along(r, 3, dr), Along(c, 3, dc)).Some?;
    }
  }

  ghost predicate Steps(b: Board, symbol: char, r: int, c: int, dr: int, dc: int)
    requires Rectangle(b.cells, b.rows, b.columns)
  {
    && dr in {-1, 0, 1} && dc in {-1, 0, 1} && (dr, dc) != (0, 0)
    && forall k :: 0 <= k < 4 ==> SymbolAt(b.cells, Along(r, k, dr), Along(c, k, dc)) == Some(symbol)
  }

  /** `k` steps from `at`: forward, backward, or none. */
  function Along(at: int, k: int, d: int): int { if d > 0 then at + k else if d < 0 then at - k else at }

  function SymbolAt(cells: seq<seq<char>>, i: int, j: int): Option<char> {
    if 0 <= i < |cells| && 0 <= j < |cells[i]| then Some(cells[i][j]) else None
  }

  /** Whether the line that starts at (r, c) passes through (row, column). */
  predicate Through(r: int, c: int, dr: int, dc: int, row: int, column: int) {
    || (r == row && c == column)
    || (r + dr == row && c + dc == column)
    || (r + 2 * dr == row && c + 2 * dc == column)
    || (r + 3 * dr == row && c + 3 * dc == column)
  }

  ghost predicate LinesThrough(b: Board, symbol: char, row: int, column: int)
    requires Rectangle(b.cells, b.rows, b.columns)
  {
    forall r, c, dr, dc :: Line(b, symbol, r, c, dr, dc) ==> Through(r, c, dr, dc, row, column)
  }

  /** What the scan looks for when it stands on cell (i, j). */
  predicate Hit(b: Board, symbol: char, i: int, j: int)
    requires Rectangle(b.cells, b.rows, b.columns)
  {
    || Line(b, symbol, i, j, 0, 1)
    || Line(b, symbol, i, j, 1, 0)
    || Line(b, symbol, i, j, 1, 1)
    || Line(b, symbol, i, j + 3, 1, -1)
  }

  /** Looking right, down and along both diagonals from every cell finds a line
      exactly when there is one in any direction. */
  lemma ScanComplete(b: Board, symbol: char)
    requires Rectangle(b.cells, b.rows, b.columns)
    ensures FourInLine(b, symbol) <==> exists i, j :: 0 <= i < b.rows && 0 <= j < b.columns && Hit(b, symbol, i, j)
  {
    if FourInLine(b, symbol) {
      var r, c, dr, dc :| Line(b, symbol, r, c, dr, dc);
      if dr < 0 || (dr == 0 && dc < 0) {
        assert Line(b, symbol, r + 3 * dr, c + 3 * dc, -dr, -dc);
        Anchor(b, symbol, r + 3 * dr, c + 3 * dc, -dr, -dc);
      } else {
        Anchor(b, symbol, r, c, dr, dc);
      }
    }
  }

  lemma Anchor(b: Board, symbol: char, r: int, c: int, dr: int, dc: int)
    requires Rectangle(b.cells, b.rows, b.columns) && Line(b, symbol, r, c, dr, dc)
    requires dr > 0 || (dr == 0 && dc > 0)
    ensures exists i, j :: 0 <= i < b.rows && 0 <= j < b.columns && Hit(b, symbol, i, j)
  {
    if dr > 0 && dc < 0 {
      assert Hit(b, symbol, r, c - 3);
    } else {
      assert Hit(b, symbol, r, c);
    }
  }

  /** A drop on a board without a line: any line on the new board has the dropped
      symbol and passes through the dropped disc, so the scan of the whole board
      agrees with a check around that disc. */
  lemma NewLinesPassThrough(b: Board, move: Int32, symbol: char, other: char)
    requires Valid(b) && symbol != BLANK && HasRoom(b, move)
    requires !FourInLine(b, symbol) && !FourInLine(b, other) && other != symbol
    ensures var Dropped(b', row) := Drop(b, move, symbol);
            && Rectangle(b'.cells, b'.rows, b'.columns)
            && !FourInLine(b', other)
            && LinesThrough(b', symbol, row, move)
  {
    DropMeaning(b, move, symbol);
    var Dropped(b', row) := Drop(b, move, symbol);
    forall r, c, dr, dc | Line(b', symbol, r, c, dr, dc) ensures Through(r, c, dr, dc, row, move) {
      if !Through(r, c, dr, dc, row, move) { assert Line(b, symbol, r, c, dr, dc); }
    }
    if FourInLine(b', other) {
      var r, c, dr, dc :| Line(b', other, r, c, dr, dc);
      assert Line(b, other, r, c, dr, dc);
    }
  }

  /** An empty board shows a line of a symbol exactly when the symbol is the blank,
      which the argument parser does not rule out. */
  lemma EmptyBoardLine(rows: nat, columns: nat, symbol: char)
    requires GoodSize(rows, columns)
    ensures FourInLine(Init(rows, columns), symbol) <==> symbol == BLANK
  {
    var b := Init(rows, columns);
    if symbol == BLANK {
      assert Line(b, symbol, 0, 0, 0, 1);
    }
  }

  // ----- A column of one symbol

  /** Column 0 holds `n` discs, and symbol `x` has no others. */
  ghost predicate Stack(b: Board, x: char, n: nat) {
    && Valid(b) && n <= b.rows && b.rowsIndex[0] == b.rows - n
    && |CellsOf(b, x)| == n
    && forall i :: b.rows - n <= i < b.rows ==> b.cells[i][0] == x
  }

  /** A line needs four discs. */
  lemma LineNeedsFour(b: Board, symbol: char)
    requires Rectangle(b.cells, b.rows, b.columns) && FourInLine(b, symbol)
    ensures |CellsOf(b, symbol)| >= 4
  {
    var r, c, dr, dc :| Line(b, symbol, r, c, dr, dc);
    FourOf(b, symbol, r, c, dr, dc, CellsOf(b, symbol));
  }

  lemma FourOf(b: Board, symbol: char, r: int, c: int, dr: int, dc: int, cells: set<(int, int)>)
    requires Rectangle(b.cells, b.rows, b.columns) && Line(b, symbol, r, c, dr, dc) && cells == CellsOf(b, symbol)
    ensures |cells| >= 4
  {
    var four := {(r, c), (r + dr, c + dc), (r + 2 * dr, c + 2 * dc), (r + 3 * dr, c + 3 * dc)};
    assert four <= cells;
    assert cells == four + (cells - four);
  }

  /** One disc more, and four of them are a line. */
  lemma StackGrows(b: Board, x: char, other: char, n: nat)
    requires Stack(b, x, n) && n <= 3 && x != BLANK && other != BLANK && other != x
    ensures HasRoom(b, 0)
    ensures var d := Drop(b, 0, x);
            && d.row == b.rows - n - 1 && d.board.rows == b.rows && d.board.columns == b.columns
            && Stack(d.board, x, n + 1)
            && (FourInLine(d.board, x) <==> n == 3)
  {
    DropMeaning(b, 0, x);
    DropCounts(b, 0, x, other);
    var d := Drop(b, 0, x).board;
    if n == 3 {
      assert Line(d, x, b.rows - 4, 0, 1, 0);
    } else if FourInLine(d, x) {
      LineNeedsFour(d, x);
    }
  }
}
