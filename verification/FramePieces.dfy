/** The pieces of a frame, read as numbers and character by character. */
module FramePieces {
  import opened FrameText

  // ----- Numbers

  predicate IsDigit(c: char) { '0' <= c <= '9' }

  /** The value of a string of digits. */
  function Value(s: string): int {
    if s == "" then 0 else 10 * Value(s[..|s| - 1]) + (s[|s| - 1] as int - '0' as int)
  }

  /** Digits only, no leading zero, and the value is `n`. */
  predicate Numeral(s: string, n: int) {
    s != "" && (forall i :: 0 <= i < |s| ==> IsDigit(s[i])) && (s[0] == '0' ==> |s| == 1) && Value(s) == n
  }

  /** Blanks and then the numeral. */
  ghost predicate Reads(s: string, n: int) { exists k: nat :: ReadsFrom(s, k, n) }

  predicate ReadsFrom(s: string, k: nat, n: int) {
    k < |s| && (forall i :: 0 <= i < k ==> s[i] == ' ') && Numeral(s[k..], n)
  }

  /** A string reads as at most one number. */
  lemma ReadsOnce(s: string, a: int, b: int)
    requires Reads(s, a) && Reads(s, b)
    ensures a == b
  {
    var k: nat :| ReadsFrom(s, k, a);
    var l: nat :| ReadsFrom(s, l, b);
    assert s[k..][0] == s[k] && s[l..][0] == s[l];
  }

  lemma {:induction false} DecimalReads(n: nat)
    ensures Numeral(Decimal(n), n)
    ensures n > 0 ==> Decimal(n)[0] != '0'
  {
    if n >= 10 {
      DecimalReads(n / 10);
      assert Decimal(n)[..|Decimal(n)| - 1] == Decimal(n / 10);
    }
  }

  lemma PadReads(n: nat, width: nat)
    ensures Reads(Pad(Decimal(n), width), n)
  {
    DecimalReads(n);
    BlanksRead(Spaces(|Pad(Decimal(n), width)| - |Decimal(n)|), Decimal(n), n);
  }

  lemma PadEnds(n: nat, width: nat)
    ensures var p := Pad(Decimal(n), width); |p| >= 1 && p[|p| - 1] as int == '0' as int + n % 10
  {
    Digits(n, 1);
    var s, p := Decimal(n), Pad(Decimal(n), width);
    assert p[|p| - 1] == s[|s| - 1];
  }

  lemma BlanksRead(blanks: string, s: string, n: nat)
    requires Numeral(s, n) && blanks == Spaces(|blanks|)
    ensures Reads(blanks + s, n) && Reads(s, n)
  {
    assert (blanks + s)[|blanks|..] == s && s[0..] == s;
    assert ReadsFrom(blanks + s, |blanks|, n) && ReadsFrom(s, 0, n);
  }

  // ----- The number of a column

  lemma {:induction false} LabelIn(n: nat, j: nat)
    requires j < n <= 9999
    ensures |Labels(n)| == 6 * n && Labels(n)[6 * j..6 * j + 6] == Label(j + 1)
  {
    LabelsLength(n);
    LabelsLength(n - 1);
    LabelLength(n);
    if j < n - 1 {
      LabelIn(n - 1, j);
      assert Labels(n)[6 * j..6 * j + 6] == Labels(n - 1)[6 * j..6 * j + 6];
    }
  }

  lemma LabelSplit(i: nat)
    requires i <= 9999
    ensures |Label(i)| == 6 && Reads(Label(i)[..4], i) && Label(i)[3] as int == '0' as int + i % 10 && Label(i)[4..] == "  "
  {
    LabelLength(i);
    PadReads(i, 4);
    PadEnds(i, 4);
    assert Label(i)[..4] == Pad(Decimal(i), 4) && Label(i)[4..] == Spaces(2);
  }

  // ----- Borders and rows

  lemma {:induction false} SeparatorsAt(n: nat, k: nat)
    requires k < 6 * n
    ensures Separators(n)[k] == if k % 6 == 5 then '+' else '-'
  {
    if k < 6 * (n - 1) {
      SeparatorsAt(n - 1, k);
    } else {
      assert Separators(n)[k] == SEPARATOR[k - 6 * (n - 1)];
    }
  }

  lemma {:induction false} CellsAt(row: seq<char>, n: nat, k: nat)
    requires n <= |row| && k < 6 * n
    ensures Cells(row, n)[k] == if k % 6 == 0 then '|' else if k % 6 == 3 then row[k / 6] else ' '
  {
    if k < 6 * (n - 1) {
      CellsAt(row, n - 1, k);
    } else {
      var cell := "|" + Spaces(2) + [row[n - 1]] + Spaces(2);
      assert Cells(row, n)[k] == cell[k - 6 * (n - 1)];
    }
  }

  lemma TopAt(columns: nat, x: nat)
    requires columns > 0 && x <= 6 + 6 * columns
    ensures TopBorder(columns)[x] == if x == 6 + 6 * columns then '\n' else if x < 5 then ' '
                                     else if (x - 5) % 6 != 0 then '-' else if x == 5 || x == 5 + 6 * columns then '*' else '+'
  {
    if 6 <= x < 6 + 6 * columns {
      SeparatorsAt(columns, x - 6);
      assert TopBorder(columns)[x] == Separators(columns)[6 * columns - 1 := '*'][x - 6];
    }
  }

  function UpperText(i: nat, row: seq<char>): string { RowLabel(i + 1) + Cells(row, |row|) + "|\n" }

  function BorderText(n: nat): string { Spaces(5) + "|" + Separators(n) + "\n" }

  lemma TwoLines(i: nat, row: seq<char>)
    requires i < 999
    ensures RowText(i, row) == UpperText(i, row) + BorderText(|row|)
    ensures |UpperText(i, row)| == |BorderText(|row|)| == 7 + 6 * |row|
    ensures UpperText(i, row)[..5] == RowLabel(i + 1)
  {
    LabelLength(i + 1);
  }

  lemma UpperAt(i: nat, row: seq<char>, x: nat)
    requires i < 999 && 5 <= x <= 6 + 6 * |row|
    ensures |UpperText(i, row)| == 7 + 6 * |row|
    ensures UpperText(i, row)[x] == if x == 6 + 6 * |row| then '\n' else if (x - 5) % 6 == 0 then '|'
                                    else if (x - 5) % 6 == 3 then row[(x - 5) / 6] else ' '
  {
    LabelLength(i + 1);
    if x < 5 + 6 * |row| {
      CellsAt(row, |row|, x - 5);
      assert UpperText(i, row)[x] == Cells(row, |row|)[x - 5];
    }
  }

  lemma BorderAt(n: nat, x: nat)
    requires x <= 6 + 6 * n
    ensures |BorderText(n)| == 7 + 6 * n
    ensures BorderText(n)[x] == if x == 6 + 6 * n then '\n' else if x < 5 then ' '
                                else if x == 5 then '|' else if (x - 5) % 6 != 0 then '-' else '+'
  {
    if 6 <= x < 6 + 6 * n {
      SeparatorsAt(n, x - 6);
      assert BorderText(n)[x] == Separators(n)[x - 6];
    }
  }

  /** The character at position `k` of the two lines of a row, before the corners are written. */
  function RowChar(row: seq<char>, k: nat): char
    requires 5 <= k < 14 + 12 * |row|
  {
    var n := |row|;
    if k == 6 + 6 * n || k == 13 + 12 * n then '\n'
    else if k < 7 + 6 * n then if (k - 5) % 6 == 0 then '|' else if (k - 5) % 6 == 3 then row[(k - 5) / 6] else ' '
    else if k < 12 + 6 * n then ' '
    else if k == 12 + 6 * n then '|'
    else if (k - 6 * n) % 6 == 0 then '+' else '-'
  }

  lemma RowTextAt(i: nat, row: seq<char>, k: nat)
    requires i < 999 && k < 14 + 12 * |row|
    ensures |RowText(i, row)| == 14 + 12 * |row|
    ensures k < 5 ==> |RowLabel(i + 1)| == 5 && RowText(i, row)[k] == RowLabel(i + 1)[k]
    ensures k >= 5 ==> RowText(i, row)[k] == RowChar(row, k)
  {
    TwoLines(i, row);
    if k < 7 + 6 * |row| {
      UpperChar(i, row, k, UpperText(i, row)[k]);
      Appended(UpperText(i, row), BorderText(|row|), k);
    } else {
      BorderChar(row, k, BorderText(|row|)[k - 7 - 6 * |row|]);
      Appended(UpperText(i, row), BorderText(|row|), k - 7 - 6 * |row|);
    }
  }

  lemma UpperChar(i: nat, row: seq<char>, k: nat, c: char)
    requires i < 999 && k < 7 + 6 * |row| == |UpperText(i, row)| && c == UpperText(i, row)[k]
    ensures k < 5 ==> |RowLabel(i + 1)| == 5 && c == RowLabel(i + 1)[k]
    ensures k >= 5 ==> c == RowChar(row, k)
  {
    if k < 5 {
      LabelLength(i + 1);
    } else {
      UpperAt(i, row, k);
    }
  }

  lemma BorderChar(row: seq<char>, k: nat, c: char)
    requires 7 + 6 * |row| <= k < 14 + 12 * |row| && |BorderText(|row|)| == 7 + 6 * |row| && c == BorderText(|row|)[k - 7 - 6 * |row|]
    ensures c == RowChar(row, k)
  {
    BorderAt(|row|, k - 7 - 6 * |row|);
  }

  /** The same with the number of the row. */
  function RowGlyph(i: nat, row: seq<char>, k: nat): char
    requires k < 14 + 12 * |row|
  {
    if k < 5 then CharAt(RowLabel(i + 1), k) else RowChar(row, k)
  }

  lemma RowGlyphAt(i: nat, row: seq<char>, k: nat)
    requires i < 999 && k < 14 + 12 * |row|
    ensures |RowText(i, row)| == 14 + 12 * |row| && RowText(i, row)[k] == RowGlyph(i, row, k)
  {
    RowTextAt(i, row, k);
  }
}
