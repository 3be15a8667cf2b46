/** A board, a replica and the messages still pending for it, when some of these may stem
    from an earlier match. */
module Coherence {
  import opened Messages
  import opened Grid
  import opened Replica
  import opened Agreement

  /** Whose replica it is. */
  datatype View = View(own: char, opponent: char, rows: nat, columns: nat)

  predicate Sees(v: View) { v.own != v.opponent && v.own != BLANK && v.opponent != BLANK }

  function Pends(m: Message, v: View): Option<Update> { UpdateOf(m, v.own, v.opponent) }

  predicate HitsAt(q: seq<Message>, v: View, n: nat, r: int, c: int)
    requires n < |q|
  {
    Targets(q, v.own, v.opponent, n, r, c)
  }

  predicate Inside(v: View, r: int, c: int) { 0 <= r < v.rows && 0 <= c < v.columns }

  predicate Fitting(m: Message, v: View) {
    var u := Pends(m, v);
    u.Some? ==> Inside(v, u.value.row, u.value.column)
  }

  /** What the message writes, if anything, is what the board shows. */
  predicate Announced(board: seq<seq<char>>, m: Message, v: View)
    requires Rectangle(board, v.rows, v.columns)
  {
    var u := Pends(m, v);
    u.Some? ==> Fitting(m, v) && board[u.value.row][u.value.column] == u.value.symbol
  }

  ghost predicate Awaited(q: seq<Message>, v: View, r: int, c: int) {
    exists n: nat :: n < |q| && HitsAt(q, v, n, r, c)
  }

  /** The pending messages write nothing but what the board shows, and all that the
      replica lacks. Unlike replica agreement this allows a cell to be written twice. */
  ghost predicate Coheres(board: seq<seq<char>>, cells: seq<seq<char>>, q: seq<Message>, v: View) {
    && Rectangle(board, v.rows, v.columns) && Rectangle(cells, v.rows, v.columns)
    && (forall n :: 0 <= n < |q| ==> Announced(board, q[n], v))
    && (forall r, c :: Inside(v, r, c) && board[r][c] != cells[r][c] ==> Awaited(q, v, r, c))
  }

  // ----- Queues that lose or gain a message

  lemma Shifted(q: seq<Message>, v: View, i: nat, n: nat, r: int, c: int)
    requires i < |q| && n < |q| && n != i && HitsAt(q, v, n, r, c)
    ensures Awaited(RemoveAt(q, i), v, r, c)
  {
    var m := if n < i then n else n - 1;
    assert RemoveAt(q, i)[m] == q[n];
    assert HitsAt(RemoveAt(q, i), v, m, r, c);
  }

  lemma AwaitedWithout(q: seq<Message>, v: View, i: nat, r: int, c: int)
    requires i < |q| && Awaited(q, v, r, c) && !HitsAt(q, v, i, r, c)
    ensures Awaited(RemoveAt(q, i), v, r, c)
  {
    var n: nat :| n < |q| && HitsAt(q, v, n, r, c);
    Shifted(q, v, i, n, r, c);
  }

  lemma AwaitedMore(q: seq<Message>, v: View, m: Message, r: int, c: int)
    requires Awaited(q, v, r, c)
    ensures Awaited(q + [m], v, r, c)
  {
    var n: nat :| n < |q| && HitsAt(q, v, n, r, c);
    assert HitsAt(q + [m], v, n, r, c);
  }

  lemma RemovedAt(q: seq<Message>, i: nat, n: nat)
    requires i < |q| && n < |q| - 1
    ensures RemoveAt(q, i)[n] == q[if n < i then n else n + 1]
  {
  }

  /** The client takes a message. */
  lemma CohereTake(board: seq<seq<char>>, cells: seq<seq<char>>, q: seq<Message>, v: View, i: nat)
    requires Coheres(board, cells, q, v) && i < |q|
    ensures Coheres(board, Write(cells, Pends(q[i], v)), RemoveAt(q, i), v)
  {
    var rest, next := RemoveAt(q, i), Write(cells, Pends(q[i], v));
    forall n | 0 <= n < |rest| ensures Announced(board, rest[n], v) { RemovedAt(q, i, n); }
    assert Announced(board, q[i], v);
    forall r, c | Inside(v, r, c) && board[r][c] != next[r][c] ensures Awaited(rest, v, r, c) {
      assert board[r][c] != cells[r][c];
      AwaitedWithout(q, v, i, r, c);
    }
  }

  /** A message that writes nothing is taken off the queue by the server. */
  lemma CohereWithout(board: seq<seq<char>>, cells: seq<seq<char>>, q: seq<Message>, v: View, i: nat)
    requires Coheres(board, cells, q, v) && i < |q| && Pends(q[i], v).None?
    ensures Coheres(board, cells, RemoveAt(q, i), v)
  {
    CohereTake(board, cells, q, v, i);
  }

  lemma CohereMore(board: seq<seq<char>>, cells: seq<seq<char>>, q: seq<Message>, v: View, m: Message)
    requires Coheres(board, cells, q, v) && Announced(board, m, v)
    ensures Coheres(board, cells, q + [m], v)
  {
    forall r, c | Inside(v, r, c) && board[r][c] != cells[r][c] ensures Awaited(q + [m], v, r, c) {
      AwaitedMore(q, v, m, r, c);
    }
  }

  /** A disc on a blank cell of the board, and the message that announces it. */
  lemma CohereDrop(board: seq<seq<char>>, cells: seq<seq<char>>, q: seq<Message>, v: View, m: Message, row: nat, column: nat, x: char)
    requires Coheres(board, cells, q, v) && Sees(v) && Pends(m, v) == Some(Update(row, column, x))
    requires Inside(v, row, column) && board[row][column] == BLANK
    ensures Coheres(Put(board, row, column, x), cells, q + [m], v)
  {
    var board', q' := Put(board, row, column, x), q + [m];
    forall n | 0 <= n < |q'| ensures Announced(board', q'[n], v) {
      if n < |q| { assert Announced(board, q[n], v); }
    }
    forall r, c | Inside(v, r, c) && board'[r][c] != cells[r][c] ensures Awaited(q', v, r, c) {
      if r == row && c == column {
        assert HitsAt(q', v, |q|, r, c);
      } else {
        AwaitedMore(q, v, m, r, c);
      }
    }
  }

  /** Whatever the order, the replica ends up as the board. */
  lemma {:induction false} CohereDrain(board: seq<seq<char>>, cells: seq<seq<char>>, q: seq<Message>, v: View, picks: seq<nat>)
    requires Coheres(board, cells, q, v)
    requires |picks| == |q| && forall k :: 0 <= k < |picks| ==> picks[k] < |q| - k
    ensures Drain(cells, q, v.own, v.opponent, picks) == board
    decreases |q|
  {
    if q == [] {
      Drained(board, cells, v);
    } else {
      CohereTake(board, cells, q, v, picks[0]);
      CohereDrain(board, Write(cells, Pends(q[picks[0]], v)), RemoveAt(q, picks[0]), v, picks[1..]);
    }
  }

  lemma Drained(board: seq<seq<char>>, cells: seq<seq<char>>, v: View)
    requires Coheres(board, cells, [], v)
    ensures cells == board
  {
    forall r, c | Inside(v, r, c) ensures cells[r][c] == board[r][c] {
      assert !Awaited([], v, r, c);
    }
    SameCells(cells, board, v.rows, v.columns);
  }

  lemma {:induction false} CohereOverlay(board: seq<seq<char>>, cells: seq<seq<char>>, q: seq<Message>, v: View)
    requires Coheres(board, cells, q, v)
    ensures Overlay(cells, q, v.own, v.opponent) == board
    decreases |q|
  {
    if q == [] {
      Drained(board, cells, v);
    } else {
      CohereTake(board, cells, q, v, 0);
      assert RemoveAt(q, 0) == q[1..];
      CohereOverlay(board, Write(cells, Pends(q[0], v)), q[1..], v);
    }
  }

  // ----- What an overlay cannot show

  /** A cell that neither has symbol `x` nor gets it. */
  lemma {:induction false} OverlayAvoids(cells: seq<seq<char>>, q: seq<Message>, v: View, r: int, c: int, x: char)
    requires Rectangle(cells, v.rows, v.columns) && Inside(v, r, c) && cells[r][c] != x
    requires forall n: nat :: n < |q| && HitsAt(q, v, n, r, c) ==> Pends(q[n], v).value.symbol != x
    ensures var o := Overlay(cells, q, v.own, v.opponent); Rectangle(o, v.rows, v.columns) && o[r][c] != x
    decreases |q|
  {
    if q == [] {
    } else {
      assert HitsAt(q, v, 0, r, c) ==> Pends(q[0], v).value.symbol != x;
      forall n: nat | n < |q[1..]| && HitsAt(q[1..], v, n, r, c) ensures Pends(q[1..][n], v).value.symbol != x {
        assert HitsAt(q, v, n + 1, r, c);
      }
      OverlayAvoids(Write(cells, Pends(q[0], v)), q[1..], v, r, c, x);
    }
  }

  /** A cell that holds a disc, or gets one, ends up with a disc. */
  lemma {:induction false} OverlayKeeps(cells: seq<seq<char>>, q: seq<Message>, v: View, r: int, c: int)
    requires Rectangle(cells, v.rows, v.columns) && Inside(v, r, c) && Sees(v)
    requires cells[r][c] != BLANK || Awaited(q, v, r, c)
    ensures var o := Overlay(cells, q, v.own, v.opponent); Rectangle(o, v.rows, v.columns) && o[r][c] != BLANK
    decreases |q|
  {
    if q == [] {
    } else {
      var next := Write(cells, Pends(q[0], v));
      if next[r][c] == BLANK {
        assert !HitsAt(q, v, 0, r, c);
        AwaitedWithout(q, v, 0, r, c);
      }
      assert RemoveAt(q, 0) == q[1..];
      OverlayKeeps(next, q[1..], v, r, c);
    }
  }

  // ----- The messages since the last GAME_END

  /** No GAME_END at position `n` or after it: the message belongs to the present match. */
  predicate Fresh(q: seq<Message>, n: nat) { forall m :: n <= m < |q| ==> !q[m].GameEnd? }

  predicate NoEnd(q: seq<Message>) { Fresh(q, 0) }

  ghost predicate FreshFor(q: seq<Message>, v: View, r: int, c: int) {
    exists n: nat :: n < |q| && Fresh(q, n) && HitsAt(q, v, n, r, c)
  }

  /** What a queue with a GAME_END holds of the present match: only what the board shows,
      and every disc of the opponent, whose TURN_START cannot be taken yet. */
  ghost predicate TailOk(board: seq<seq<char>>, q: seq<Message>, v: View) {
    && Rectangle(board, v.rows, v.columns)
    && (forall n: nat :: n < |q| && Fresh(q, n) ==> Announced(board, q[n], v))
    && (forall r, c :: Inside(v, r, c) && board[r][c] == v.opponent ==> FreshFor(q, v, r, c))
  }

  lemma FreshWithout(q: seq<Message>, i: nat, n: nat)
    requires i < |q| && n < |q| - 1 && !NoEnd(RemoveAt(q, i))
    ensures Fresh(RemoveAt(q, i), n) ==> Fresh(q, if n < i then n else n + 1) || q[i].GameEnd?
    ensures n >= i ==> (Fresh(RemoveAt(q, i), n) <==> Fresh(q, n + 1))
    ensures n < i && Fresh(q, n) ==> Fresh(RemoveAt(q, i), n)
  {
    var rest := RemoveAt(q, i);
    forall m | 0 <= m < |rest| ensures rest[m] == q[if m < i then m else m + 1] { RemovedAt(q, i, m); }
    if n >= i && Fresh(rest, n) {
      forall m | n + 1 <= m < |q| ensures !q[m].GameEnd? { assert rest[m - 1] == q[m]; }
    }
    if n < i && Fresh(rest, n) && !q[i].GameEnd? {
      forall m | n <= m < |q| ensures !q[m].GameEnd? {
        if m != i { assert rest[if m < i then m else m - 1] == q[m]; }
      }
    }
  }

  ghost predicate LaterEnd(q: seq<Message>, i: nat) { exists g: nat :: i < g < |q| && q[g].GameEnd? }

  /** A message is taken while a GAME_END stays pending: no disc of the opponent's. */
  lemma TailWithout(board: seq<seq<char>>, q: seq<Message>, v: View, i: nat)
    requires TailOk(board, q, v) && Sees(v) && i < |q| && !NoEnd(RemoveAt(q, i))
    requires q[i].GameEnd? ==> LaterEnd(q, i)
    requires !q[i].TurnStart?
    ensures TailOk(board, RemoveAt(q, i), v)
  {
    var rest := RemoveAt(q, i);
    forall n: nat | n < |rest| && Fresh(rest, n) ensures Announced(board, rest[n], v) {
      RemovedAt(q, i, n);
      FreshStays(q, i, n);
    }
    forall r, c | Inside(v, r, c) && board[r][c] == v.opponent ensures FreshFor(rest, v, r, c) {
      var n: nat :| n < |q| && Fresh(q, n) && HitsAt(q, v, n, r, c);
      assert Announced(board, q[n], v);
      assert n != i;
      var m := if n < i then n else n - 1;
      FreshWithout(q, i, m);
      RemovedAt(q, i, m);
      assert HitsAt(rest, v, m, r, c);
    }
  }

  lemma FreshStays(q: seq<Message>, i: nat, n: nat)
    requires i < |q| && n < |q| - 1 && !NoEnd(RemoveAt(q, i)) && Fresh(RemoveAt(q, i), n)
    requires q[i].GameEnd? ==> LaterEnd(q, i)
    ensures Fresh(q, if n < i then n else n + 1)
  {
    FreshWithout(q, i, n);
    if q[i].GameEnd? && n < i {
      var g: nat :| i < g < |q| && q[g].GameEnd?;
      RemovedAt(q, i, g - 1);
    }
  }

  lemma FreshMore(q: seq<Message>, m: Message, n: nat)
    requires n <= |q| && !m.GameEnd?
    ensures Fresh(q + [m], n) <==> Fresh(q, n)
  {
    if Fresh(q + [m], n) {
      forall k | n <= k < |q| ensures !q[k].GameEnd? { assert (q + [m])[k] == q[k]; }
    }
  }

  lemma FreshForMore(q: seq<Message>, v: View, m: Message, r: int, c: int)
    requires FreshFor(q, v, r, c) && !m.GameEnd?
    ensures FreshFor(q + [m], v, r, c)
  {
    var n: nat :| n < |q| && Fresh(q, n) && HitsAt(q, v, n, r, c);
    FreshMore(q, m, n);
    assert HitsAt(q + [m], v, n, r, c);
  }

  lemma TailMore(board: seq<seq<char>>, q: seq<Message>, v: View, m: Message)
    requires TailOk(board, q, v) && !m.GameEnd? && Announced(board, m, v)
    ensures TailOk(board, q + [m], v)
  {
    forall n: nat | n < |q + [m]| && Fresh(q + [m], n) ensures Announced(board, (q + [m])[n], v) {
      if n < |q| { FreshMore(q, m, n); }
    }
    forall r, c | Inside(v, r, c) && board[r][c] == v.opponent ensures FreshFor(q + [m], v, r, c) {
      FreshForMore(q, v, m, r, c);
    }
  }

  lemma TailDrop(board: seq<seq<char>>, q: seq<Message>, v: View, m: Message, row: nat, column: nat, x: char)
    requires TailOk(board, q, v) && Sees(v) && !m.GameEnd? && Pends(m, v) == Some(Update(row, column, x))
    requires Inside(v, row, column) && board[row][column] == BLANK
    ensures TailOk(Put(board, row, column, x), q + [m], v)
  {
    var board', q' := Put(board, row, column, x), q + [m];
    forall n: nat | n < |q'| && Fresh(q', n) ensures Announced(board', q'[n], v) {
      if n < |q| {
        FreshMore(q, m, n);
        assert Announced(board, q[n], v);
      }
    }
    forall r, c | Inside(v, r, c) && board'[r][c] == v.opponent ensures FreshFor(q', v, r, c) {
      if r == row && c == column {
        assert Fresh(q', |q|) && HitsAt(q', v, |q|, r, c);
      } else {
        FreshForMore(q, v, m, r, c);
      }
    }
  }

  /** A GAME_END at the end of the queue: nothing of the next match yet. */
  lemma TailEnds(q: seq<Message>, v: View)
    requires q != [] && q[|q| - 1].GameEnd? && v.opponent != BLANK
    ensures TailOk(BlankCells(v.rows, v.columns), q, v)
  {
    forall n: nat | n < |q| ensures !Fresh(q, n) { assert q[|q| - 1].GameEnd?; }
  }

  // ----- Catching up

  /** Nothing of an earlier match will be written, and nothing of the present one was lost:
      the board shows no own disc, and of the first `before` messages every TURN_START names
      a cell that the opponent holds. */
  ghost predicate Unspoiled(board: seq<seq<char>>, q: seq<Message>, v: View, before: nat)
    requires Rectangle(board, v.rows, v.columns) && before <= |q|
  {
    && (forall r, c :: Inside(v, r, c) ==> board[r][c] != v.own)
    && (forall n :: 0 <= n < before ==> Held(board, q[n], v))
  }

  /** A TURN_START that names a cell which the opponent holds. */
  predicate Held(board: seq<seq<char>>, m: Message, v: View)
    requires Rectangle(board, v.rows, v.columns)
  {
    m.TurnStart? ==> Inside(v, m.reply.row, m.reply.column) && board[m.reply.row][m.reply.column] == v.opponent
  }

  /** Blank, or one of the two symbols. */
  ghost predicate Coloured(board: seq<seq<char>>, v: View)
    requires Rectangle(board, v.rows, v.columns)
  {
    forall r, c :: Inside(v, r, c) ==> board[r][c] == BLANK || board[r][c] == v.own || board[r][c] == v.opponent
  }

  /** The last of the client's GAME_END messages is taken and the replica wiped. */
  lemma CatchUp(board: seq<seq<char>>, q: seq<Message>, v: View, i: nat)
    requires TailOk(board, q, v) && Sees(v) && Coloured(board, v) && forall n :: 0 <= n < |q| ==> Fitting(q[n], v)
    requires Takes(q, -MSG_GAME_START, i) && q[i].GameEnd? && NoEnd(RemoveAt(q, i))
    ensures var rest, blank := RemoveAt(q, i), BlankCells(v.rows, v.columns);
            && (Unspoiled(board, q, v, i) ==> Coheres(board, blank, rest, v))
            && (Overlay(blank, rest, v.own, v.opponent) == board <==> Unspoiled(board, q, v, i))
  {
    var rest, blank := RemoveAt(q, i), BlankCells(v.rows, v.columns);
    OnlyTurns(q, v, i);
    if Unspoiled(board, q, v, i) {
      CatchUpCoheres(board, q, v, i);
      CohereOverlay(board, blank, rest, v);
    }
    if Overlay(blank, rest, v.own, v.opponent) == board {
      NoOwnShown(board, rest, v);
      forall n | 0 <= n < i ensures Held(board, q[n], v) {
        RemovedAt(q, i, n);
        if q[n].TurnStart? { StaleShown(board, rest, v, n); }
      }
    }
  }

  /** With a GAME_END to take first, the other updates pending are TURN_START messages. */
  lemma OnlyTurns(q: seq<Message>, v: View, i: nat)
    requires Takes(q, -MSG_GAME_START, i) && q[i].GameEnd? && NoEnd(RemoveAt(q, i))
    ensures forall n :: 0 <= n < |RemoveAt(q, i)| && Pends(RemoveAt(q, i)[n], v).Some? ==> RemoveAt(q, i)[n].TurnStart?
  {
    var rest := RemoveAt(q, i);
    forall n | 0 <= n < |rest| && Pends(rest[n], v).Some? ensures rest[n].TurnStart? {
      RemovedAt(q, i, n);
      var m := if n < i then n else n + 1;
      assert Eligible(q[m].Type(), -MSG_GAME_START);
    }
  }

  lemma CatchUpCoheres(board: seq<seq<char>>, q: seq<Message>, v: View, i: nat)
    requires TailOk(board, q, v) && Sees(v) && Coloured(board, v) && forall n :: 0 <= n < |q| ==> Fitting(q[n], v)
    requires i < |q| && q[i].GameEnd? && NoEnd(RemoveAt(q, i)) && Unspoiled(board, q, v, i)
    requires forall n :: 0 <= n < |RemoveAt(q, i)| && Pends(RemoveAt(q, i)[n], v).Some? ==> RemoveAt(q, i)[n].TurnStart?
    ensures Coheres(board, BlankCells(v.rows, v.columns), RemoveAt(q, i), v)
  {
    var rest, blank := RemoveAt(q, i), BlankCells(v.rows, v.columns);
    forall n | 0 <= n < |rest| ensures Announced(board, rest[n], v) {
      RemovedAt(q, i, n);
      if n >= i { FreshAfter(q, i, n + 1); } else { assert Fitting(q[n], v); }
    }
    forall r, c | Inside(v, r, c) && board[r][c] != blank[r][c] ensures Awaited(rest, v, r, c) {
      assert board[r][c] == v.opponent;
      var n: nat :| n < |q| && Fresh(q, n) && HitsAt(q, v, n, r, c);
      assert n > i;
      Shifted(q, v, i, n, r, c);
    }
  }

  lemma FreshAfter(q: seq<Message>, i: nat, n: nat)
    requires i < n < |q| && NoEnd(RemoveAt(q, i))
    ensures Fresh(q, n)
  {
    forall m | n <= m < |q| ensures !q[m].GameEnd? {
      RemovedAt(q, i, m - 1);
      assert !RemoveAt(q, i)[m - 1].GameEnd?;
    }
  }

  /** Where the overlay of TURN_START messages on a blank replica is the board, the board
      has no own disc, and the opponent's at each of them. */
  lemma NoOwnShown(board: seq<seq<char>>, q: seq<Message>, v: View)
    requires Rectangle(board, v.rows, v.columns) && Sees(v)
    requires forall n :: 0 <= n < |q| && Pends(q[n], v).Some? ==> q[n].TurnStart?
    requires Overlay(BlankCells(v.rows, v.columns), q, v.own, v.opponent) == board
    ensures forall r, c :: Inside(v, r, c) ==> board[r][c] != v.own
  {
    forall r, c | Inside(v, r, c) ensures board[r][c] != v.own {
      TurnsAvoid(q, v, r, c);
    }
  }

  lemma TurnsAvoid(q: seq<Message>, v: View, r: int, c: int)
    requires Sees(v) && Inside(v, r, c)
    requires forall n :: 0 <= n < |q| && Pends(q[n], v).Some? ==> q[n].TurnStart?
    ensures var o := Overlay(BlankCells(v.rows, v.columns), q, v.own, v.opponent);
            Rectangle(o, v.rows, v.columns) && o[r][c] != v.own
  {
    forall n: nat | n < |q| && HitsAt(q, v, n, r, c) ensures Pends(q[n], v).value.symbol != v.own {
      assert q[n].TurnStart?;
    }
    OverlayAvoids(BlankCells(v.rows, v.columns), q, v, r, c, v.own);
  }

  lemma StaleShown(board: seq<seq<char>>, q: seq<Message>, v: View, n: nat)
    requires Rectangle(board, v.rows, v.columns) && Sees(v) && Coloured(board, v)
    requires forall m :: 0 <= m < |q| && Pends(q[m], v).Some? ==> q[m].TurnStart?
    requires Overlay(BlankCells(v.rows, v.columns), q, v.own, v.opponent) == board
    requires n < |q| && q[n].TurnStart? && Fitting(q[n], v)
    ensures Held(board, q[n], v)
  {
    var r, c := q[n].reply.row, q[n].reply.column;
    TurnsAvoid(q, v, r, c);
    HitByTurn(q, v, n);
    OverlayKeeps(BlankCells(v.rows, v.columns), q, v, r, c);
  }

  lemma HitByTurn(q: seq<Message>, v: View, n: nat)
    requires n < |q| && q[n].TurnStart?
    ensures Awaited(q, v, q[n].reply.row, q[n].reply.column)
  {
    assert HitsAt(q, v, n, q[n].reply.row, q[n].reply.column);
  }

  /** A winner wipes its replica: its queue has neither a GAME_END nor an acknowledgement. */
  lemma WinnerCatchesUp(q: seq<Message>, v: View)
    requires Sees(v) && forall n :: 0 <= n < |q| ==> Fitting(q[n], v) && !q[n].GameEnd? && !q[n].ServerAck?
    ensures var blank := BlankCells(v.rows, v.columns);
            && (Unspoiled(blank, q, v, |q|) ==> Coheres(blank, blank, q, v))
            && (Overlay(blank, q, v.own, v.opponent) == blank <==> Unspoiled(blank, q, v, |q|))
  {
    var blank := BlankCells(v.rows, v.columns);
    if Unspoiled(blank, q, v, |q|) {
      forall n | 0 <= n < |q| ensures Announced(blank, q[n], v) { assert Fitting(q[n], v); }
      CohereOverlay(blank, blank, q, v);
    }
    if Overlay(blank, q, v.own, v.opponent) == blank {
      forall n | 0 <= n < |q| ensures Held(blank, q[n], v) {
        if q[n].TurnStart? { StaleShown(blank, q, v, n); }
      }
    }
  }

  // ----- One step of a client and its queue

  /** A message may leave the queue, written or not; messages may join it, and a disc may
      be dropped on the board, which one of them announces. */
  datatype Change = Change(taken: Option<nat>, written: bool, joined: seq<Message>, put: Option<Update>)

  ghost predicate Changes(board: seq<seq<char>>, cells: seq<seq<char>>, q: seq<Message>,
                          board': seq<seq<char>>, cells': seq<seq<char>>, q': seq<Message>, v: View, ch: Change)
  {
    && Rectangle(board, v.rows, v.columns) && Rectangle(cells, v.rows, v.columns)
    && (ch.taken.Some? ==> ch.taken.value < |q| && (ch.written || Pends(q[ch.taken.value], v).None?))
    && cells' == (if ch.taken.Some? && ch.written then Write(cells, Pends(q[ch.taken.value], v)) else cells)
    && q' == (if ch.taken.Some? then RemoveAt(q, ch.taken.value) else q) + ch.joined
    && board' == Write(board, ch.put)
    && (ch.put.None? ==> forall n :: 0 <= n < |ch.joined| ==> Pends(ch.joined[n], v).None?)
    && (ch.put.Some? ==>
          && |ch.joined| == 1 && Pends(ch.joined[0], v) == ch.put
          && Inside(v, ch.put.value.row, ch.put.value.column) && board[ch.put.value.row][ch.put.value.column] == BLANK)
  }

  lemma {:induction false} CohereMany(board: seq<seq<char>>, cells: seq<seq<char>>, q: seq<Message>, v: View, ms: seq<Message>)
    requires Coheres(board, cells, q, v) && forall n :: 0 <= n < |ms| ==> Pends(ms[n], v).None?
    ensures Coheres(board, cells, q + ms, v)
  {
    if ms == [] {
      assert q + ms == q;
    } else {
      var n := |ms| - 1;
      CohereMany(board, cells, q, v, ms[..n]);
      CohereMore(board, cells, q + ms[..n], v, ms[n]);
      assert q + ms == q + ms[..n] + [ms[n]];
    }
  }

  lemma CohereChange(board: seq<seq<char>>, cells: seq<seq<char>>, q: seq<Message>,
                     board': seq<seq<char>>, cells': seq<seq<char>>, q': seq<Message>, v: View, ch: Change)
    requires Coheres(board, cells, q, v) && Sees(v) && Changes(board, cells, q, board', cells', q', v, ch)
    ensures Coheres(board', cells', q', v)
  {
    var rest := if ch.taken.Some? then RemoveAt(q, ch.taken.value) else q;
    if ch.taken.Some? { CohereTake(board, cells, q, v, ch.taken.value); }
    assert Coheres(board, cells', rest, v);
    if ch.put.None? {
      CohereMany(board, cells', rest, v, ch.joined);
    } else {
      CohereDrop(board, cells', rest, v, ch.joined[0], ch.put.value.row, ch.put.value.column, ch.put.value.symbol);
      assert ch.joined == [ch.joined[0]];
    }
  }

  /** An own disc of the board that the replica will not get. */
  ghost predicate Lost(board: seq<seq<char>>, cells: seq<seq<char>>, q: seq<Message>, v: View, r: int, c: int) {
    && Rectangle(board, v.rows, v.columns) && Rectangle(cells, v.rows, v.columns)
    && Inside(v, r, c) && board[r][c] == v.own && cells[r][c] != v.own
    && forall n: nat :: n < |q| && HitsAt(q, v, n, r, c) ==> Pends(q[n], v).value.symbol != v.own
  }

  lemma LostChange(board: seq<seq<char>>, cells: seq<seq<char>>, q: seq<Message>,
                   board': seq<seq<char>>, cells': seq<seq<char>>, q': seq<Message>, v: View, ch: Change, r: int, c: int)
    requires Lost(board, cells, q, v, r, c) && Sees(v) && Changes(board, cells, q, board', cells', q', v, ch)
    ensures Lost(board', cells', q', v, r, c)
  {
    if ch.taken.Some? {
      var i := ch.taken.value;
      assert HitsAt(q, v, i, r, c) ==> Pends(q[i], v).value.symbol != v.own;
    }
    forall n: nat | n < |q'| && HitsAt(q', v, n, r, c) ensures Pends(q'[n], v).value.symbol != v.own {
      FromChange(board, cells, q, board', cells', q', v, ch, n);
    }
  }

  /** Where a message of the changed queue comes from. */
  lemma FromChange(board: seq<seq<char>>, cells: seq<seq<char>>, q: seq<Message>,
                   board': seq<seq<char>>, cells': seq<seq<char>>, q': seq<Message>, v: View, ch: Change, n: nat)
    requires Changes(board, cells, q, board', cells', q', v, ch) && n < |q'|
    ensures Pends(q'[n], v).None? || Pends(q'[n], v) == ch.put ||
            exists m: nat :: m < |q| && q[m] == q'[n] && forall r, c :: HitsAt(q, v, m, r, c) == HitsAt(q', v, n, r, c)
  {
    var rest := if ch.taken.Some? then RemoveAt(q, ch.taken.value) else q;
    if n < |rest| {
      var m := if ch.taken.Some? && n >= ch.taken.value then n + 1 else n;
      assert q[m] == q'[n];
    } else {
      assert q'[n] == ch.joined[n - |rest|];
    }
  }

  /** A disc that the replica has or will get. */
  ghost predicate Marked(cells: seq<seq<char>>, q: seq<Message>, v: View, r: int, c: int) {
    Rectangle(cells, v.rows, v.columns) && Inside(v, r, c) && (cells[r][c] != BLANK || Awaited(q, v, r, c))
  }

  lemma MarkedChange(board: seq<seq<char>>, cells: seq<seq<char>>, q: seq<Message>,
                     board': seq<seq<char>>, cells': seq<seq<char>>, q': seq<Message>, v: View, ch: Change, r: int, c: int)
    requires Marked(cells, q, v, r, c) && Sees(v) && Changes(board, cells, q, board', cells', q', v, ch)
    ensures Marked(cells', q', v, r, c)
  {
    if cells'[r][c] == BLANK {
      var rest := if ch.taken.Some? then RemoveAt(q, ch.taken.value) else q;
      if ch.taken.Some? {
        AwaitedWithout(q, v, ch.taken.value, r, c);
      }
      AwaitedMany(rest, v, ch.joined, r, c);
    }
  }

  lemma AwaitedMany(q: seq<Message>, v: View, ms: seq<Message>, r: int, c: int)
    requires Awaited(q, v, r, c)
    ensures Awaited(q + ms, v, r, c)
  {
    var n: nat :| n < |q| && HitsAt(q, v, n, r, c);
    assert (q + ms)[n] == q[n];
    assert HitsAt(q + ms, v, n, r, c);
  }
}
