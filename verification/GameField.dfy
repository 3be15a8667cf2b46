/** The server's board object: arrays updated in place. */
module GameField {
  import opened Messages
  import opened Grid

  const SIZE_MAX := TWO64 - 1

  /** The four kernels handed to the win scan, indexed by direction. */
  const HORIZONTAL := 0
  const VERTICAL := 1
  const DIAGONAL_L := 2
  const DIAGONAL_R := 3

  lemma SameBoard(a: Board, b: Board)
    requires a.rows == b.rows && a.columns == b.columns && a.rowsIndex == b.rowsIndex
    requires Rectangle(a.cells, a.rows, a.columns) && Rectangle(b.cells, b.rows, b.columns)
    requires forall i, j :: 0 <= i < a.rows && 0 <= j < a.columns ==> a.cells[i][j] == b.cells[i][j]
    ensures a == b
  {
    forall i | 0 <= i < a.rows ensures a.cells[i] == b.cells[i] {}
  }

  lemma BlankBoard(b: Board)
    requires Rectangle(b.cells, b.rows, b.columns) && |b.rowsIndex| == b.columns
    requires forall i, j :: 0 <= i < b.rows && 0 <= j < b.columns ==> b.cells[i][j] == BLANK
    requires forall c :: 0 <= c < b.columns ==> b.rowsIndex[c] == b.rows
    ensures b == Init(b.rows, b.columns)
  {
    SameBoard(b, Init(b.rows, b.columns));
  }

  /** The first `k` of the four cells from (r, c) hold the symbol. */
  ghost predicate Streak(b: Board, symbol: char, r: int, c: int, dr: int, dc: int, k: int)
    requires Rectangle(b.cells, b.rows, b.columns)
  {
    && (k > 0 ==> Holds(b, r, c, symbol))
    && (k > 1 ==> Holds(b, r + dr, c + dc, symbol))
    && (k > 2 ==> Holds(b, r + 2 * dr, c + 2 * dc, symbol))
    && (k > 3 ==> Holds(b, r + 3 * dr, c + 3 * dc, symbol))
  }

  method CopyKernel(kernel: array2<char>, height: nat, width: nat) returns (copy: array2<char>)
    requires kernel.Length0 == height && kernel.Length1 == width
    ensures fresh(copy) && copy.Length0 == height && copy.Length1 == width
    ensures forall i, j :: 0 <= i < height && 0 <= j < width ==> copy[i, j] == kernel[i, j]
  {
    copy := new char[height, width];
    for i := 0 to height
      invariant forall i', j :: 0 <= i' < i && 0 <= j < width ==> copy[i', j] == kernel[i', j]
    {
      for j := 0 to width
        invariant forall i', j' :: 0 <= i' < i && 0 <= j' < width ==> copy[i', j'] == kernel[i', j']
        invariant forall j' :: 0 <= j' < j ==> copy[i, j'] == kernel[i, j']
      {
        copy[i, j] := kernel[i, j];
      }
    }
  }

  method InitHorizontal(kern: array2<char>, symbol: char)
    requires kern.Length0 == 1 && kern.Length1 == WIN_SEQUENCE_SIZE
    modifies kern
    ensures forall k :: 0 <= k < WIN_SEQUENCE_SIZE ==> kern[0, k] == symbol
  {
    forall k | 0 <= k < WIN_SEQUENCE_SIZE { kern[0, k] := symbol; }
  }

  method InitVertical(kern: array2<char>, symbol: char)
    requires kern.Length0 == WIN_SEQUENCE_SIZE && kern.Length1 == 1
    modifies kern
    ensures forall k :: 0 <= k < WIN_SEQUENCE_SIZE ==> kern[k, 0] == symbol
  {
    for i := 0 to WIN_SEQUENCE_SIZE
      invariant forall k :: 0 <= k < i ==> kern[k, 0] == symbol
    {
      kern[i, 0] := symbol;
    }
  }

  method InitDiagonalR(kern: array2<char>, symbol: char)
    requires kern.Length0 == WIN_SEQUENCE_SIZE && kern.Length1 == WIN_SEQUENCE_SIZE
    modifies kern
    ensures forall k :: 0 <= k < WIN_SEQUENCE_SIZE ==> kern[k, k] == symbol
    ensures forall i, j :: 0 <= i < WIN_SEQUENCE_SIZE && 0 <= j < WIN_SEQUENCE_SIZE && i != j ==> kern[i, j] == old(kern[i, j])
  {
    for i := 0 to WIN_SEQUENCE_SIZE
      invariant forall k :: 0 <= k < i ==> kern[k, k] == symbol
      invariant forall k, j :: 0 <= k < WIN_SEQUENCE_SIZE && 0 <= j < WIN_SEQUENCE_SIZE && k != j ==> kern[k, j] == old(kern[k, j])
    {
      kern[i, i] := symbol;
    }
  }

  /** The first `n` cells of the anti-diagonal hold the symbol. */
  ghost predicate AntiDiagonal(kern: array2<char>, symbol: char, n: int)
    requires kern.Length0 == WIN_SEQUENCE_SIZE && kern.Length1 == WIN_SEQUENCE_SIZE
    reads kern
  {
    forall i, j :: 0 <= i < n && i < WIN_SEQUENCE_SIZE && 0 <= j < WIN_SEQUENCE_SIZE && i + j == WIN_SEQUENCE_SIZE - 1 ==>
                     kern[i, j] == symbol
  }

  method InitDiagonalL(kern: array2<char>, symbol: char)
    requires kern.Length0 == WIN_SEQUENCE_SIZE && kern.Length1 == WIN_SEQUENCE_SIZE
    modifies kern
    ensures AntiDiagonal(kern, symbol, WIN_SEQUENCE_SIZE)
    ensures forall i, j :: 0 <= i < WIN_SEQUENCE_SIZE && 0 <= j < WIN_SEQUENCE_SIZE && i + j != WIN_SEQUENCE_SIZE - 1 ==>
                             kern[i, j] == old(kern[i, j])
  {
    var counter := WIN_SEQUENCE_SIZE - 1;
    for i := 0 to WIN_SEQUENCE_SIZE
      invariant counter == if i == WIN_SEQUENCE_SIZE then SIZE_MAX else WIN_SEQUENCE_SIZE - 1 - i
      invariant AntiDiagonal(kern, symbol, i)
      invariant forall k, j :: 0 <= k < WIN_SEQUENCE_SIZE && 0 <= j < WIN_SEQUENCE_SIZE && k + j != WIN_SEQUENCE_SIZE - 1 ==>
                                 kern[k, j] == old(kern[k, j])
    {
      kern[i, counter] := symbol;
      counter := if counter == 0 then SIZE_MAX else counter - 1;
    }
  }

  /** The four kernels have the sizes that `game_init_kernels` gives them. */
  ghost predicate KernelShapes(kernels: seq<array2<char>>) {
    && |kernels| == 4
    && kernels[HORIZONTAL].Length0 == 1 && kernels[HORIZONTAL].Length1 == WIN_SEQUENCE_SIZE
    && kernels[VERTICAL].Length0 == WIN_SEQUENCE_SIZE && kernels[VERTICAL].Length1 == 1
    && kernels[DIAGONAL_L].Length0 == WIN_SEQUENCE_SIZE && kernels[DIAGONAL_L].Length1 == WIN_SEQUENCE_SIZE
    && kernels[DIAGONAL_R].Length0 == WIN_SEQUENCE_SIZE && kernels[DIAGONAL_R].Length1 == WIN_SEQUENCE_SIZE
  }

  method InitKernels() returns (kernels: seq<array2<char>>)
    ensures KernelShapes(kernels)
    ensures forall k :: 0 <= k < 4 ==> fresh(kernels[k])
    ensures forall k, i, j :: 0 <= k < 4 && 0 <= i < kernels[k].Length0 && 0 <= j < kernels[k].Length1 ==> kernels[k][i, j] == BLANK
  {
    var h := new char[1, WIN_SEQUENCE_SIZE]((i, j) => BLANK);
    var v := new char[WIN_SEQUENCE_SIZE, 1]((i, j) => BLANK);
    var l := new char[WIN_SEQUENCE_SIZE, WIN_SEQUENCE_SIZE]((i, j) => BLANK);
    var r := new char[WIN_SEQUENCE_SIZE, WIN_SEQUENCE_SIZE]((i, j) => BLANK);
    kernels := [h, v, l, r];
  }

  /** The kernels once the four fillers have run. */
  ghost predicate KernelsFilled(h: array2<char>, v: array2<char>, r: array2<char>, l: array2<char>, symbol: char)
    reads h, v, r, l
  {
    && h.Length0 == 1 && h.Length1 == WIN_SEQUENCE_SIZE
    && v.Length0 == WIN_SEQUENCE_SIZE && v.Length1 == 1
    && r.Length0 == WIN_SEQUENCE_SIZE && r.Length1 == WIN_SEQUENCE_SIZE
    && l.Length0 == WIN_SEQUENCE_SIZE && l.Length1 == WIN_SEQUENCE_SIZE
    && (forall k :: 0 <= k < WIN_SEQUENCE_SIZE ==> h[0, k] == symbol)
    && (forall k :: 0 <= k < WIN_SEQUENCE_SIZE ==> v[k, 0] == symbol)
    && (forall k :: 0 <= k < WIN_SEQUENCE_SIZE ==> r[k, k] == symbol)
    && AntiDiagonal(l, symbol, WIN_SEQUENCE_SIZE)
  }

  lemma HitIsLine(b: Board, symbol: char, i: nat, j: nat)
    requires Rectangle(b.cells, b.rows, b.columns) && i < b.rows && j < b.columns && Hit(b, symbol, i, j)
    ensures FourInLine(b, symbol)
  {
    ScanComplete(b, symbol);
  }

  lemma NoHitNoLine(b: Board, symbol: char)
    requires Rectangle(b.cells, b.rows, b.columns)
    requires forall i, j :: 0 <= i < b.rows && 0 <= j < b.columns ==> !Hit(b, symbol, i, j)
    ensures !FourInLine(b, symbol)
  {
    ScanComplete(b, symbol);
  }

  class GameField {
    const rows: nat
    const columns: nat
    const matrix: array2<char>
    const rowsIndex: array<nat>
    var movesCounter: nat

    ghost predicate Allocated()
    {
      matrix.Length0 == rows && matrix.Length1 == columns && rowsIndex.Length == columns
    }

    /** The board that the two arrays represent. */
    ghost function Value(): (b: Board)
      requires Allocated()
      reads matrix, rowsIndex
      ensures b.rows == rows && b.columns == columns && Rectangle(b.cells, rows, columns)
      ensures b.rowsIndex == rowsIndex[..]
      ensures forall i, j :: 0 <= i < rows && 0 <= j < columns ==> b.cells[i][j] == matrix[i, j]
    {
      Board(rows, columns, CellsOfMatrix(matrix), rowsIndex[..])
    }

    constructor (rows: nat, columns: nat)
      ensures this.rows == rows && this.columns == columns
      ensures Allocated() && fresh(matrix) && fresh(rowsIndex)
      ensures Value() == Init(rows, columns) && movesCounter == 0
    {
      movesCounter := 0;
      this.rows, this.columns := rows, columns;
      var m := new char[rows, columns];
      var r := new nat[columns];
      for i := 0 to rows
        invariant forall i', j :: 0 <= i' < i && 0 <= j < columns ==> m[i', j] == BLANK
      {
        forall j | 0 <= j < columns { m[i, j] := BLANK; }
      }
      for c := 0 to columns
        invariant forall c' :: 0 <= c' < c ==> r[c'] == rows
        invariant forall i, j :: 0 <= i < rows && 0 <= j < columns ==> m[i, j] == BLANK
      {
        r[c] := rows;
      }
      matrix, rowsIndex := m, r;
      new;
      BlankBoard(Value());
    }

    method Reset()
      requires Allocated()
      modifies this, matrix, rowsIndex
      ensures Value() == Init(rows, columns) && movesCounter == 0
    {
      for c := 0 to columns
        invariant forall c' :: 0 <= c' < c ==> rowsIndex[c'] == rows
      {
        rowsIndex[c] := rows;
      }
      for i := 0 to rows
        invariant forall c :: 0 <= c < columns ==> rowsIndex[c] == rows
        invariant forall i', j :: 0 <= i' < i && 0 <= j < columns ==> matrix[i', j] == BLANK
      {
        forall j | 0 <= j < columns { matrix[i, j] := BLANK; }
      }
      movesCounter := 0;
      BlankBoard(Value());
    }

    /** Drops a disc; -1 if the column does not exist or is full. */
    method SetPoint(move: Int32, symbol: char) returns (row: int)
      requires Allocated() && Shape(Value())
      modifies matrix, rowsIndex
      ensures Dropped(Value(), row) == Drop(old(Value()), move, symbol)
    {
      if SizeT(move) > Sub32(columns, 1) {
        return -1;
      }
      var currentRow := rowsIndex[move];
      if currentRow == 0 {
        return -1;
      }
      assert Value().rowsIndex[move] == currentRow;
      matrix[currentRow - 1, move] := symbol;
      rowsIndex[move] := currentRow - 1;
      row := rowsIndex[move];
      SameBoard(Value(), Drop(old(Value()), move, symbol).board);
    }

    /** The scan: true exactly when the board shows four in line of `player`,
        whatever the kernels passed in contain. */
    method CheckWin(player: char, kernels: seq<array2<char>>) returns (win: bool)
      requires Allocated() && GoodSize(rows, columns)
      requires KernelShapes(kernels)
      ensures win <==> FourInLine(Value(), player)
    {
      var horizontalKern := CopyKernel(kernels[HORIZONTAL], 1, WIN_SEQUENCE_SIZE);
      InitHorizontal(horizontalKern, player);
      var verticalKern := CopyKernel(kernels[VERTICAL], WIN_SEQUENCE_SIZE, 1);
      InitVertical(verticalKern, player);
      var diagonalKernR := CopyKernel(kernels[DIAGONAL_R], WIN_SEQUENCE_SIZE, WIN_SEQUENCE_SIZE);
      InitDiagonalR(diagonalKernR, player);
      var diagonalKernL := CopyKernel(kernels[DIAGONAL_L], WIN_SEQUENCE_SIZE, WIN_SEQUENCE_SIZE);
      InitDiagonalL(diagonalKernL, player);

      win := Scan(player, horizontalKern, verticalKern, diagonalKernR, diagonalKernL);
    }

    method Scan(player: char, horizontalKern: array2<char>, verticalKern: array2<char>,
                diagonalKernR: array2<char>, diagonalKernL: array2<char>) returns (win: bool)
      requires Allocated() && GoodSize(rows, columns)
      requires KernelsFilled(horizontalKern, verticalKern, diagonalKernR, diagonalKernL, player)
      ensures win <==> FourInLine(Value(), player)
    {
      ghost var b := Value();
      for i := 0 to rows
        invariant forall i', j :: 0 <= i' < i && 0 <= j < columns ==> !Hit(b, player, i', j)
      {
        for j := 0 to columns
          invariant forall j' :: 0 <= j' < j ==> !Hit(b, player, i, j')
        {
          var hit := ScanCell(player, i, j, horizontalKern, verticalKern, diagonalKernR, diagonalKernL);
          if hit {
            HitIsLine(b, player, i, j);
            return true;
          }
        }
      }
      NoHitNoLine(b, player);
      return false;
    }

    /** The body of the scan for one cell. */
    method ScanCell(player: char, i: nat, j: nat, horizontalKern: array2<char>, verticalKern: array2<char>,
                    diagonalKernR: array2<char>, diagonalKernL: array2<char>) returns (hit: bool)
      requires Allocated() && GoodSize(rows, columns) && i < rows && j < columns
      requires KernelsFilled(horizontalKern, verticalKern, diagonalKernR, diagonalKernL, player)
      ensures hit <==> Hit(Value(), player, i, j)
    {
      if j <= Sub32(columns, WIN_SEQUENCE_SIZE) {
        hit := ScanRight(player, i, j, horizontalKern);
        if hit { return true; }
      }
      if i <= Sub32(rows, WIN_SEQUENCE_SIZE) {
        hit := ScanDown(player, i, j, verticalKern);
        if hit { return true; }
      }
      if i <= Sub32(rows, WIN_SEQUENCE_SIZE) && j <= Sub32(columns, WIN_SEQUENCE_SIZE) {
        hit := ScanDiagonals(player, i, j, diagonalKernR, diagonalKernL);
        if hit { return true; }
      }
      return false;
    }

    method ScanRight(player: char, i: nat, j: nat, kern: array2<char>) returns (hit: bool)
      requires Allocated() && i < rows && j + WIN_SEQUENCE_SIZE <= columns
      requires kern.Length0 == 1 && kern.Length1 == WIN_SEQUENCE_SIZE
      requires forall k :: 0 <= k < WIN_SEQUENCE_SIZE ==> kern[0, k] == player
      ensures hit <==> Line(Value(), player, i, j, 0, 1)
    {
      ghost var b := Value();
      var sum := 0;
      for k := 0 to WIN_SEQUENCE_SIZE
        invariant sum <= k && (sum == k <==> Streak(b, player, i, j, 0, 1, k))
      {
        if matrix[i, j + k] == kern[0, k] { sum := sum + 1; }
      }
      return sum == WIN_SEQUENCE_SIZE;
    }

    method ScanDown(player: char, i: nat, j: nat, kern: array2<char>) returns (hit: bool)
      requires Allocated() && i + WIN_SEQUENCE_SIZE <= rows && j < columns
      requires kern.Length0 == WIN_SEQUENCE_SIZE && kern.Length1 == 1
      requires forall k :: 0 <= k < WIN_SEQUENCE_SIZE ==> kern[k, 0] == player
      ensures hit <==> Line(Value(), player, i, j, 1, 0)
    {
      ghost var b := Value();
      var sum := 0;
      for k := 0 to WIN_SEQUENCE_SIZE
        invariant sum <= k && (sum == k <==> Streak(b, player, i, j, 1, 0, k))
      {
        if matrix[i + k, j] == kern[k, 0] { sum := sum + 1; }
      }
      return sum == WIN_SEQUENCE_SIZE;
    }

    method ScanDiagonals(player: char, i: nat, j: nat, kernR: array2<char>, kernL: array2<char>) returns (hit: bool)
      requires Allocated() && i + WIN_SEQUENCE_SIZE <= rows && j + WIN_SEQUENCE_SIZE <= columns
      requires kernR.Length0 == WIN_SEQUENCE_SIZE && kernR.Length1 == WIN_SEQUENCE_SIZE
      requires forall k :: 0 <= k < WIN_SEQUENCE_SIZE ==> kernR[k, k] == player
      requires kernL.Length0 == WIN_SEQUENCE_SIZE && kernL.Length1 == WIN_SEQUENCE_SIZE
      requires AntiDiagonal(kernL, player, WIN_SEQUENCE_SIZE)
      ensures hit <==> Line(Value(), player, i, j, 1, 1) || Line(Value(), player, i, j + 3, 1, -1)
    {
      ghost var b := Value();
      var sum1, sum2 := 0, 0;
      for k := 0 to WIN_SEQUENCE_SIZE
        invariant sum1 <= k && (sum1 == k <==> Streak(b, player, i, j, 1, 1, k))
        invariant sum2 <= k && (sum2 == k <==> Streak(b, player, i, j + 3, 1, -1, k))
      {
        if matrix[i + k, j + k] == kernR[k, k] { sum1 := sum1 + 1; }
        if matrix[i + k, j + (WIN_SEQUENCE_SIZE - 1) - k] == kernL[k, (WIN_SEQUENCE_SIZE - 1) - k] {
          sum2 := sum2 + 1;
        }
      }
      return sum1 == WIN_SEQUENCE_SIZE || sum2 == WIN_SEQUENCE_SIZE;
    }
  }
}
