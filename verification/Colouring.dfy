/** A colouring of boards of any size without four in line, and an order of drops in
    which two players who alternate produce it. */
module Colouring {
  import opened Messages
  import opened Grid
  import opened Match
  import opened MatchSafety

  // ----- A colouring without lines

  /** 0, 0, 1, 1, 0, 0, 1, 1, ... */
  function Flip(h: nat): Player { if h < 2 then 0 else 1 - Flip(h - 2) }

  /** The player whose disc is at height `h` of column `c`. */
  function Shade(h: nat, c: nat): Player { if Flip(h) == c % 2 then 0 else 1 }

  /** Every disc on the board has the colour of its cell. */
  ghost predicate Striped(b: Board, symbols: seq<char>)
    requires Shape(b) && |symbols| == 2
  {
    forall i, c :: 0 <= i < b.rows && 0 <= c < b.columns && b.cells[i][c] != BLANK ==>
                     b.cells[i][c] == symbols[Shade(b.rows - 1 - i, c)]
  }

  lemma StripedHasNoLine(b: Board, symbols: seq<char>)
    requires Shape(b) && GoodSymbols(symbols) && Striped(b, symbols)
    ensures !FourInLine(b, symbols[0]) && !FourInLine(b, symbols[1])
  {
    forall p: Player, r, c, dr, dc ensures !Line(b, symbols[p], r, c, dr, dc) {
      StripedIsNoLine(b, symbols, p, r, c, dr, dc);
    }
  }

  /** Two neighbours in a row differ, and so do two cells two rows apart on any other line. */
  lemma StripedIsNoLine(b: Board, symbols: seq<char>, p: Player, r: int, c: int, dr: int, dc: int)
    requires Shape(b) && GoodSymbols(symbols) && Striped(b, symbols)
    ensures !Line(b, symbols[p], r, c, dr, dc)
  {
    if dr == 0 {
      NoRowStriped(b, symbols, p, r, c, dc);
    } else {
      NoSlopeStriped(b, symbols, p, r, c, dr, dc);
    }
  }

  lemma NoRowStriped(b: Board, symbols: seq<char>, p: Player, r: int, c: int, dc: int)
    requires Shape(b) && GoodSymbols(symbols) && Striped(b, symbols)
    ensures (dc == 1 || dc == -1) && Holds(b, r, c, symbols[p]) ==> !Holds(b, r, c + dc, symbols[p])
  {
    if (dc == 1 || dc == -1) && Holds(b, r, c, symbols[p]) && 0 <= c + dc < b.columns {
      ShadesAlternate(b.rows - 1 - r, c, c + dc);
      ShadeHeld(b, symbols, p, r, c);
      ShadeHeld(b, symbols, p, r, c + dc);
    }
  }

  lemma NoSlopeStriped(b: Board, symbols: seq<char>, p: Player, r: int, c: int, dr: int, dc: int)
    requires Shape(b) && GoodSymbols(symbols) && Striped(b, symbols)
    ensures (dr == 1 || dr == -1) && -1 <= dc <= 1 && Holds(b, r, c, symbols[p]) ==>
              !Holds(b, r + 2 * dr, c + 2 * dc, symbols[p])
  {
    var u, v := r + 2 * dr, c + 2 * dc;
    if (dr == 1 || dr == -1) && -1 <= dc <= 1 && Holds(b, r, c, symbols[p]) && 0 <= u < b.rows && 0 <= v < b.columns {
      ShadesDiffer(b.rows - 1 - r, c, dr, dc);
      ShadeHeld(b, symbols, p, r, c);
      ShadeHeld(b, symbols, p, u, v);
    }
  }

  lemma ShadeHeld(b: Board, symbols: seq<char>, p: Player, r: nat, c: nat)
    requires Shape(b) && GoodSymbols(symbols) && Striped(b, symbols) && r < b.rows && c < b.columns
    ensures b.cells[r][c] == symbols[p] ==> Shade(b.rows - 1 - r, c) == p
  {
  }

  lemma ShadesAlternate(h: nat, c: nat, d: nat)
    requires d == c + 1 || c == d + 1
    ensures Shade(h, c) != Shade(h, d)
  {
  }

  lemma ShadesDiffer(h: nat, c: nat, dr: int, dc: int)
    requires (dr == 1 || dr == -1) && -1 <= dc <= 1 && h - 2 * dr >= 0 && c + 2 * dc >= 0
    ensures Shade(h, c) != Shade(h - 2 * dr, c + 2 * dc)
  {
    assert (c + 2 * dc) % 2 == c % 2;
  }

  // ----- The order of the drops

  /** The place of a drop: the pair of columns that is being filled, the height in it,
      and whether the other column of the pair has been filled to that height; with
      them Flip(height), and whether it is the second of two equal ones. */
  datatype Spot = Spot(pair: nat, height: nat, second: bool, flip: Player, upper: bool)

  const FIRST_SPOT := Spot(0, 0, false, 0, false)

  /** The pairs of columns are filled from left to right, each one row by row. */
  function NextSpot(rows: nat, p: Spot): Spot {
    if !p.second then p.(second := true)
    else if p.height + 1 == rows then Spot(p.pair + 1, 0, false, 0, false)
    else Spot(p.pair, p.height + 1, false, if p.upper then 1 - p.flip else p.flip, !p.upper)
  }

  function SpotAt(rows: nat, n: nat): (p: Spot)
    requires rows > 0
    ensures p.height < rows && (p.second <==> n % 2 == 1)
  {
    if n == 0 then FIRST_SPOT else NextSpot(rows, SpotAt(rows, n - 1))
  }

  /** The column in which the player to move finds a cell of the own colour. */
  function ColumnOf(p: Spot): nat { 2 * p.pair + if p.second then 1 - p.flip else p.flip }

  /** The number of discs in column `c` before the drop. */
  function Stacked(p: Spot, rows: nat, c: nat): nat {
    if c < 2 * p.pair then rows
    else if c >= 2 * p.pair + 2 then 0
    else p.height + if p.second && c == 2 * p.pair + p.flip then 1 else 0
  }

  function AsMove(c: nat): Int32 { if c < 0x8000_0000 then c else 0 }

  function DropAt(rows: nat, n: nat): Wake
    requires rows > 0
  {
    Wake([], Some(Request(AsMove(ColumnOf(SpotAt(rows, n))), false)), [])
  }

  /** The wake-ups of the first `n` drops. */
  function Filling(rows: nat, n: nat): (ws: seq<Wake>)
    requires rows > 0
    ensures |ws| == n
  {
    if n == 0 then [] else Filling(rows, n - 1) + [DropAt(rows, n - 1)]
  }

  lemma {:induction false} SpotIs(rows: nat, n: nat)
    requires rows > 0
    ensures var p := SpotAt(rows, n); n == p.pair * (2 * rows) + 2 * p.height + if p.second then 1 else 0
  {
    if n == 0 {
    } else {
      SpotIs(rows, n - 1);
      var p := SpotAt(rows, n - 1);
      assert (p.pair + 1) * (2 * rows) == p.pair * (2 * rows) + 2 * rows;
    }
  }

  /** The drops that fill whole pairs of columns stay on the board. */
  lemma InPairs(rows: nat, columns: nat, n: nat)
    requires rows > 0 && n < columns / 2 * (2 * rows)
    ensures 2 * SpotAt(rows, n).pair + 1 < columns
  {
    var pair, half := SpotAt(rows, n).pair, columns / 2;
    SpotIs(rows, n);
    if pair >= half {
      Monotone(half, pair, 2 * rows);
    }
  }

  lemma Monotone(a: nat, b: nat, k: nat)
    requires a <= b
    ensures a * k <= b * k
  {
  }
}
