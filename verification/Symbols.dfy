/** The symbols that the argument parser does not check: the promises of a match about
    wins hold exactly when they differ and neither is the blank. */
module Symbols {
  import opened Messages
  import opened Grid
  import opened Match
  import opened MatchSafety
  import opened MatchTheorems

  /** What is promised at every blocked receive. */
  ghost predicate Sound(t: State)
    requires Good(t)
  {
    && (t.phase.Playing? ==> !FourInLine(t.board, t.symbols[0]) && !FourInLine(t.board, t.symbols[1]))
    && (t.phase.Deciding? ==> FourInLine(t.board, t.symbols[t.current]) && !FourInLine(t.board, t.symbols[Other(t.current)]))
  }

  /** A fresh board, whatever the symbols. */
  ghost predicate Blank(s: State) {
    Good(s) && s.board == Init(s.board.rows, s.board.columns) && s.moves == 0
  }

  const DROP := Wake([], Some(Request(0, false)), [])

  function Drops(n: nat): (ws: seq<Wake>)
    ensures |ws| == n
  {
    if n == 0 then [] else Drops(n - 1) + [DROP]
  }

  /** Both players drop `x` in column 0, in turn. */
  ghost predicate Shared(s: State, x: char, n: nat) {
    && Good(s) && s.symbols == [x, x] && x != BLANK && Stack(s.board, x, n) && n <= 3
    && s.phase.Playing? && s.moves == n && Calm(s.flags) && Roomy(s)
  }

  lemma SharedNext(s: State, x: char, n: nat)
    requires Shared(s, x, n)
    ensures var t := Step(s, DROP).state;
            if n < 3 then Shared(t, x, n + 1)
            else t.phase.Deciding? && t.symbols == [x, x] && FourInLine(t.board, x)
  {
    StackGrows(s.board, x, if x == 'x' then 'o' else 'x', n);
    MoveCases(s, 0);
    RoomyStill(s, Step(s, DROP).state);
    DropIsMove(s, n);
  }

  lemma DropIsMove(s: State, n: nat)
    requires Good(s) && s.phase.Playing? && Calm(s.flags) && Drop(s.board, 0, s.symbols[s.current]).row >= 0
    ensures Step(s, DROP) == Move(s, 0) && Calm(Step(s, DROP).state.flags)
  {
  }

  lemma {:induction false} SharedRun(s: State, x: char, n: nat)
    requires Blank(s) && Calm(s.flags) && NoWrap(s.board) && s.symbols == [x, x] && x != BLANK && n <= 3
    ensures Shared(Play(Begin(s, 0), Drops(n)).st, x, n)
  {
    if n == 0 {
      InitValid(s.board.rows, s.board.columns);
      RoomyStart(s.board);
      assert CellsOf(s.board, x) == {};
    } else {
      SharedRun(s, x, n - 1);
      SharedNext(Play(Begin(s, 0), Drops(n - 1)).st, x, n - 1);
      assert Drops(n)[..n - 1] == Drops(n - 1);
    }
  }

  /** A shared symbol: after four drops both players have four in line. */
  lemma SharedSymbol(s: State, x: char)
    requires Blank(s) && Calm(s.flags) && NoWrap(s.board) && s.symbols == [x, x] && x != BLANK
    ensures var t := Play(Begin(s, 0), Drops(4)).st;
            t.phase.Deciding? && FourInLine(t.board, t.symbols[0]) && FourInLine(t.board, t.symbols[1]) && !Sound(t)
  {
    SharedRun(s, x, 3);
    SharedNext(Play(Begin(s, 0), Drops(3)).st, x, 3);
    assert Drops(4)[..3] == Drops(3);
  }

  /** A blank symbol: four in line before the first move. */
  lemma BlankSymbol(s: State, p: Player)
    requires Blank(s) && s.symbols[p] == BLANK
    ensures !Sound(Play(Begin(s, 0), []).st)
  {
    EmptyBoardLine(s.board.rows, s.board.columns, BLANK);
  }

  /** The promises about wins hold in every run exactly when the symbols differ and
      neither is the blank. */
  lemma {:induction false} SymbolsExact(s: State)
    requires Blank(s) && Calm(s.flags) && NoWrap(s.board)
    ensures (forall first: Player, ws: seq<Wake> :: Sound(Play(Begin(s, first), ws).st)) <==> GoodSymbols(s.symbols)
  {
    if GoodSymbols(s.symbols) {
      forall first: Player, ws: seq<Wake> ensures Sound(Play(Begin(s, first), ws).st) {
        WinSoundness(s, first, ws);
      }
    } else if s.symbols[0] == BLANK {
      BlankSymbol(s, 0);
    } else if s.symbols[1] == BLANK {
      BlankSymbol(s, 1);
    } else {
      assert s.symbols == [s.symbols[0], s.symbols[0]];
      SharedSymbol(s, s.symbols[0]);
    }
  }
}
