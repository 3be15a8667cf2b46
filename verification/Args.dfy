/** The server's command line. */
module Args {
  import opened Messages
  import opened Grid
  import opened MatchSafety

  datatype ServerArgs = ServerArgs(rows: int, columns: int, symbols: seq<char>)

  type Byte = b: int | 0 <= b < 256

  /** The value of a byte read as a signed `char`. */
  function SignedChar(b: Byte): int { if b >= 128 then b - 256 else b }

  /** The numbers are what `atoi` made of the texts; a symbol is the bytes of its argument. */
  function ParseArgs(argc: int, rows: Int32, columns: Int32, first: seq<Byte>, second: seq<Byte>): Option<ServerArgs> {
    if argc != 5 then None
    else if rows < 4 || columns < 4 then None
    else if |first| != 1 || |second| != 1 then None
    else if SignedChar(first[0]) > 127 || SignedChar(second[0]) > 127 then None
    else Some(ServerArgs(rows, columns, [first[0] as char, second[0] as char]))
  }

  /** Exactly what the parser checks: the size of the board and one byte per symbol.
      The test for ASCII refuses nothing; distinct and non-blank symbols are what
      remains to be assumed. */
  lemma ParserChecks(argc: int, rows: Int32, columns: Int32, first: seq<Byte>, second: seq<Byte>)
    ensures var a := ParseArgs(argc, rows, columns, first, second);
            && (a.Some? <==> argc == 5 && rows >= 4 && columns >= 4 && |first| == 1 && |second| == 1)
            && (a.Some? ==> GoodSize(rows, columns) && a.value.rows == rows && a.value.columns == columns && a.value.symbols == [first[0] as char, second[0] as char])
            && (a.Some? ==> (GoodSymbols(a.value.symbols) <==> first != second && first != [0x20] && second != [0x20]))
  {
    if |first| == 1 && |second| == 1 {
      assert first == [first[0]] && second == [second[0]];
      assert (first[0] as char == second[0] as char) <==> first[0] == second[0];
      assert first[0] as char == BLANK <==> first[0] == 0x20;
      assert second[0] as char == BLANK <==> second[0] == 0x20;
    }
  }

  /** Two blank symbols and a board of 2^32 cells pass. */
  lemma ParserMisses()
    ensures var a := ParseArgs(5, 65536, 65536, [0x20], [0x20]);
            && a.Some? && !GoodSymbols(a.value.symbols)
            && !NoWrap(Init(a.value.rows, a.value.columns)) && MaxMovesAre0(a.value.rows, a.value.columns)
  {
  }

  predicate MaxMovesAre0(rows: int, columns: int) { rows * columns % TWO32 == 0 }
}
