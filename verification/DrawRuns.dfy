/** Runs that fill a board of any size without four in line, and what they show about
    the 32-bit test for the last move: it is right in every run exactly when the number
    of cells fits in 32 bits. */
module DrawRuns {
  import opened Messages
  import opened Grid
  import opened Match
  import opened MatchSafety
  import opened MatchTheorems
  import opened Colouring

  // ----- One drop

  /** The board after the first `n` drops. */
  ghost predicate Built(b: Board, symbols: seq<char>, n: nat) {
    && Valid(b) && |symbols| == 2 && Striped(b, symbols)
    && forall c :: 0 <= c < b.columns ==> b.rowsIndex[c] == b.rows - Stacked(SpotAt(b.rows, n), b.rows, c)
  }

  /** The match after the first `n` drops. */
  ghost predicate Underway(s: State, n: nat) {
    && Good(s) && GoodSymbols(s.symbols) && Built(s.board, s.symbols, n) && Calm(s.flags)
    && s.phase.Playing? && s.moves == n && s.current == n % 2
  }

  lemma StackedNext(rows: nat, p: Spot, c: nat)
    requires p.height < rows
    ensures Stacked(NextSpot(rows, p), rows, c) == Stacked(p, rows, c) + if c == ColumnOf(p) then 1 else 0
    ensures Stacked(p, rows, ColumnOf(p)) == p.height
  {
  }

  lemma {:induction false} FlipUp(h: nat)
    ensures Flip(h + 1) == if h % 2 == 1 then 1 - Flip(h) else Flip(h)
  {
    if h < 2 {
    } else {
      FlipUp(h - 2);
    }
  }

  lemma {:induction false} SpotFlips(rows: nat, n: nat)
    requires rows > 0
    ensures var p := SpotAt(rows, n); p.flip == Flip(p.height) && (p.upper <==> p.height % 2 == 1)
  {
    if n == 0 {
    } else {
      SpotFlips(rows, n - 1);
      FlipUp(SpotAt(rows, n - 1).height);
    }
  }

  lemma RightShade(p: Spot)
    requires p.flip == Flip(p.height)
    ensures Shade(p.height, ColumnOf(p)) == if p.second then 1 else 0
  {
    assert ColumnOf(p) % 2 == if p.second then 1 - p.flip else p.flip;
  }

  lemma BuiltNext(b: Board, symbols: seq<char>, n: nat)
    requires Built(b, symbols, n) && GoodSymbols(symbols) && n < b.columns / 2 * (2 * b.rows)
    ensures ColumnOf(SpotAt(b.rows, n)) < b.columns
    ensures var move := ColumnOf(SpotAt(b.rows, n));
            var Dropped(b', row) := Drop(b, move, symbols[n % 2]);
            HasRoom(b, move) && row >= 0 && Built(b', symbols, n + 1)
  {
    InPairs(b.rows, b.columns, n);
    BuiltStep(b, symbols, SpotAt(b.rows, n), n);
  }

  lemma BuiltStep(b: Board, symbols: seq<char>, p: Spot, n: nat)
    requires Built(b, symbols, n) && GoodSymbols(symbols) && p == SpotAt(b.rows, n) && ColumnOf(p) < b.columns
    ensures var Dropped(b', row) := Drop(b, ColumnOf(p), symbols[n % 2]);
            HasRoom(b, ColumnOf(p)) && row >= 0 && Built(b', symbols, n + 1)
  {
    var move := ColumnOf(p);
    StackedNext(b.rows, p, move);
    SpotFlips(b.rows, n);
    RightShade(p);
    DropMeaning(b, move, symbols[n % 2]);
    StripedDrop(b, symbols, move, n % 2, p.height);
    var b' := Drop(b, move, symbols[n % 2]).board;
    forall c | 0 <= c < b.columns ensures b'.rowsIndex[c] == b.rows - Stacked(NextSpot(b.rows, p), b.rows, c) {
      StackedNext(b.rows, p, c);
    }
  }

  lemma StripedDrop(b: Board, symbols: seq<char>, move: Int32, p: Player, h: nat)
    requires Valid(b) && GoodSymbols(symbols) && Striped(b, symbols) && HasRoom(b, move)
    requires b.rowsIndex[move] == b.rows - h && Shade(h, move) == p
    ensures var b' := Drop(b, move, symbols[p]).board; Shape(b') && Striped(b', symbols)
  {
    DropMeaning(b, move, symbols[p]);
  }

  /** Without a line, an accepted move either ends the match by the 32-bit test or
      passes the turn. */
  lemma StepForm(s: State, w: Wake)
    requires Good(s) && s.phase.Playing? && Calm(s.flags) && w.signals == [] && w.taken.Some?
    requires var d := Drop(s.board, w.taken.value.move, s.symbols[s.current]);
             d.row >= 0 && !FourInLine(d.board, s.symbols[s.current])
    ensures var b, t := Drop(s.board, w.taken.value.move, s.symbols[s.current]).board, Step(s, w).state;
            && t.board == b && t.moves == s.moves + 1 && t.symbols == s.symbols && Calm(t.flags)
            && t.phase == (if s.moves + 1 == MaxMoves(b) then Ended(-4) else Playing)
            && (t.phase.Playing? ==> t.current == Other(s.current))
  {
    assert Step(s, w) == Move(s, w.taken.value.move);
  }

  lemma UnderwayNext(s: State, n: nat)
    requires Underway(s, n) && n < s.board.columns / 2 * (2 * s.board.rows)
    ensures var t := Step(s, DropAt(s.board.rows, n)).state;
            && Built(t.board, s.symbols, n + 1) && Filled(t.board) == Filled(s.board) + 1
            && t.phase == (if n + 1 == MaxMoves(s.board) then Ended(-4) else Playing)
            && (n + 1 != MaxMoves(s.board) ==> Underway(t, n + 1))
  {
    BuiltNext(s.board, s.symbols, n);
    var move := ColumnOf(SpotAt(s.board.rows, n));
    var b := Drop(s.board, move, s.symbols[n % 2]).board;
    StripedHasNoLine(b, s.symbols);
    DropCounts(s.board, move, s.symbols[n % 2], s.symbols[Other(n % 2)]);
    StepForm(s, DropAt(s.board.rows, n));
  }

  // ----- The run

  lemma StartsBuilt(s: State)
    requires Startable(s) && Calm(s.flags)
    ensures Underway(Begin(s, 0).st, 0)
  {
    InitValid(s.board.rows, s.board.columns);
  }

  lemma FillingNext(r: Run, rows: nat, n: nat)
    requires Good(r.st) && rows > 0
    ensures Play(r, Filling(rows, n + 1)).st == Step(Play(r, Filling(rows, n)).st, DropAt(rows, n)).state
  {
    assert Filling(rows, n + 1)[..n] == Filling(rows, n);
  }

  /** As long as the counter does not meet the product, the drops go on. */
  lemma {:induction false} Fills(s: State, n: nat)
    requires Startable(s) && Calm(s.flags)
    requires n <= s.board.columns / 2 * (2 * s.board.rows) && (MaxMoves(s.board) == 0 || n < MaxMoves(s.board))
    ensures var t := Play(Begin(s, 0), Filling(s.board.rows, n)).st;
            Underway(t, n) && Filled(t.board) == n
  {
    if n == 0 {
      StartsBuilt(s);
      InitValid(s.board.rows, s.board.columns);
    } else {
      Fills(s, n - 1);
      FillingNext(Begin(s, 0), s.board.rows, n - 1);
      UnderwayNext(Play(Begin(s, 0), Filling(s.board.rows, n - 1)).st, n - 1);
    }
  }

  // ----- Boards whose number of cells wraps

  lemma {:induction false} OddFactor(r: nat, c: nat, k: nat)
    requires c % 2 == 1 && r * c % Pow2(k) == 0
    ensures r % Pow2(k) == 0
    decreases k
  {
    if k == 0 {
    } else {
      var p, q := Pow2(k - 1), r * c / Pow2(k);
      assert r * c == 2 * p * q;
      EvenFactor(r, c, p * q);
      var h := r / 2;
      assert h * c == p * q;
      assert h * c % p == 0 by { Multiple(p, q); }
      OddFactor(h, c, k - 1);
      assert r == 2 * (p * (h / p)) == Pow2(k) * (h / p);
      Multiple(Pow2(k), h / p);
    }
  }

  function Pow2(k: nat): (p: nat)
    ensures p > 0
  {
    if k == 0 then 1 else 2 * Pow2(k - 1)
  }

  lemma Multiple(p: nat, q: nat)
    requires p > 0
    ensures p * q % p == 0
  {
    Quotient(p * q, p, q, p * q / p, p * q % p);
  }

  /** There is only one remainder. */
  lemma Quotient(n: nat, p: nat, q: nat, d: nat, r: nat)
    requires n == p * q && n == p * d + r && r < p
    ensures r == 0
  {
    assert (d + 1) * p == p * d + p;
    if q > d { Monotone(d + 1, q, p); } else { Monotone(q, d, p); }
  }

  lemma EvenFactor(r: nat, c: nat, m: nat)
    requires c % 2 == 1 && r * c == 2 * m
    ensures r % 2 == 0
  {
    var a, b := r / 2, c / 2;
    var odd := 2 * (2 * (a * b) + a + b) + 1;
    assert (2 * a + 1) * (2 * b + 1) == odd;
    assert odd % 2 == 1;
  }

  /** A number of cells that is 0 in 32 bits comes from an even number of columns. */
  lemma WrapsToZero(rows: nat, columns: nat)
    requires 0 < rows < TWO32 && rows * columns % TWO32 == 0
    ensures columns % 2 == 0
  {
    if columns % 2 == 1 {
      assert Pow2(32) == TWO32 by { PowerOf32(); }
      OddFactor(rows, columns, 32);
    }
  }

  lemma PowerOf32()
    ensures Pow2(32) == TWO32
  {
    assert Pow2(8) == 0x100;
    assert Pow2(16) == 0x1_0000;
    assert Pow2(24) == 0x100_0000;
  }

  /** The cells outside the pairs of columns are fewer than 2^32. */
  lemma PairsSuffice(b: Board)
    requires GoodSize(b.rows, b.columns)
    ensures b.rows * b.columns - b.rows <= b.columns / 2 * (2 * b.rows)
    ensures b.columns % 2 == 0 ==> b.rows * b.columns == b.columns / 2 * (2 * b.rows)
  {
    var half := b.columns / 2;
    assert b.rows * (2 * half) == half * (2 * b.rows);
    assert b.columns == 2 * half || b.columns == 2 * half + 1;
    assert b.rows * (2 * half + 1) == b.rows * (2 * half) + b.rows;
  }

  lemma WrapFits(b: Board)
    requires GoodSize(b.rows, b.columns) && !NoWrap(b)
    ensures MaxMoves(b) < b.rows * b.columns && MaxMoves(b) <= b.columns / 2 * (2 * b.rows)
  {
    PairsSuffice(b);
    Remains(b.rows * b.columns);
  }

  lemma Remains(cells: nat)
    requires cells >= TWO32
    ensures cells % TWO32 <= cells - TWO32
  {
  }

  // ----- Theorems

  /** Too many cells for 32 bits, and not a multiple of 2^32: a run of as many accepted
      moves as the product shows declares a draw on a board with blank cells. */
  lemma EarlyDraw(s: State)
    requires Startable(s) && Calm(s.flags) && !NoWrap(s.board) && MaxMoves(s.board) > 0
    ensures var t := Play(Begin(s, 0), Filling(s.board.rows, MaxMoves(s.board))).st;
            t.phase == Ended(-4) && t.symbols == s.symbols && Filled(t.board) == MaxMoves(s.board)
            && !Full(t.board) && NoLine(t)
  {
    var b, m := s.board, MaxMoves(s.board);
    WrapFits(b);
    Fills(s, m - 1);
    FillingNext(Begin(s, 0), b.rows, m - 1);
    var u := Play(Begin(s, 0), Filling(b.rows, m - 1)).st;
    UnderwayNext(u, m - 1);
    var t := Step(u, DropAt(b.rows, m - 1)).state;
    StripedHasNoLine(t.board, s.symbols);
    CounterAgreement(t.board);
  }

  /** A multiple of 2^32 cells: a run fills the board without a line and without a draw. */
  lemma MissedDraw(s: State)
    requires Startable(s) && Calm(s.flags) && MaxMoves(s.board) == 0
    ensures var t := Play(Begin(s, 0), Filling(s.board.rows, s.board.rows * s.board.columns)).st;
            t.phase.Playing? && t.symbols == s.symbols && Full(t.board) && NoLine(t)
  {
    var b := s.board;
    WrapsToZero(b.rows, b.columns);
    PairsSuffice(b);
    Fills(s, b.rows * b.columns);
    var t := Play(Begin(s, 0), Filling(b.rows, b.rows * b.columns)).st;
    StripedHasNoLine(t.board, s.symbols);
    CounterAgreement(t.board);
  }

  /** The match ended as a draw exactly if the board is full and shows no line. */
  ghost predicate DrawIsRight(t: State)
    requires Good(t)
  {
    t.phase == Ended(-4) <==> Full(t.board) && NoLine(t)
  }

  /** Draws are right in every run of a match exactly when the number of cells fits in
      32 bits. */
  lemma {:induction false} DrawExactIff(s: State)
    requires Startable(s) && Calm(s.flags)
    ensures (forall first: Player, ws: seq<Wake> :: DrawIsRight(Play(Begin(s, first), ws).st)) <==> NoWrap(s.board)
  {
    if NoWrap(s.board) {
      forall first: Player, ws: seq<Wake> ensures DrawIsRight(Play(Begin(s, first), ws).st) {
        DrawExact(s, first, ws);
      }
    } else if MaxMoves(s.board) > 0 {
      EarlyDraw(s);
      assert !DrawIsRight(Play(Begin(s, 0), Filling(s.board.rows, MaxMoves(s.board))).st);
    } else {
      MissedDraw(s);
      assert !DrawIsRight(Play(Begin(s, 0), Filling(s.board.rows, s.board.rows * s.board.columns)).st);
    }
  }

  /** On 65536 x 65537 cells, 65536 wake-ups lead from the start of the match to a draw
      on a board of which all but 65536 cells are blank. */
  lemma DrawAfter65536(s: State)
    requires Startable(s) && Calm(s.flags) && s.board.rows == 65536 && s.board.columns == 65537
    ensures var t := Play(Begin(s, 0), Filling(65536, 65536)).st;
            t.phase == Ended(-4) && Filled(t.board) == 65536 && !Full(t.board) && NoLine(t)
  {
    assert MaxMoves(s.board) == 65536;
    EarlyDraw(s);
  }
}
