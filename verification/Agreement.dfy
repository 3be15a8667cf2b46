/** The relation between the server's board, one client's replica and the cell
    updates still pending in that client's queue. */
module Agreement {
  import opened Messages
  import opened Grid
  import opened Replica

  /** Message `i` of the queue writes cell (r, c). */
  predicate Targets(q: seq<Message>, own: char, opponent: char, i: nat, r: int, c: int)
    requires i < |q|
  {
    var u := UpdateOf(q[i], own, opponent);
    u.Some? && u.value.row == r && u.value.column == c
  }

  /** The pending updates are exactly the differences between the replica and the
      board, each once: every one goes to a cell of the board that is blank on the
      replica and carries the symbol the board has there. */
  ghost predicate Agree(board: seq<seq<char>>, replica: seq<seq<char>>, q: seq<Message>, own: char, opponent: char,
                        rows: nat, columns: nat)
  {
    && Rectangle(board, rows, columns) && Rectangle(replica, rows, columns)
    && (forall i :: 0 <= i < |q| ==> FillsBlank(board, replica, q[i], own, opponent, rows, columns))
    && (forall i, j, r, c :: 0 <= i < |q| && 0 <= j < |q| && Targets(q, own, opponent, i, r, c) && Targets(q, own, opponent, j, r, c) ==> i == j)
    && (forall r, c :: 0 <= r < rows && 0 <= c < columns && board[r][c] != replica[r][c] ==>
                         Pending(q, own, opponent, r, c))
  }

  ghost predicate Pending(q: seq<Message>, own: char, opponent: char, r: int, c: int) {
    exists i :: 0 <= i < |q| && Targets(q, own, opponent, i, r, c)
  }

  ghost predicate FillsBlank(board: seq<seq<char>>, replica: seq<seq<char>>, m: Message, own: char, opponent: char,
                             rows: nat, columns: nat)
    requires Rectangle(board, rows, columns) && Rectangle(replica, rows, columns)
  {
    var u := UpdateOf(m, own, opponent);
    u.Some? ==>
      && 0 <= u.value.row < rows && 0 <= u.value.column < columns
      && replica[u.value.row][u.value.column] == BLANK
      && board[u.value.row][u.value.column] == u.value.symbol != BLANK
  }

  /** A message that writes nothing may be queued. */
  lemma AgreeQuiet(board: seq<seq<char>>, replica: seq<seq<char>>, q: seq<Message>, own: char, opponent: char,
                   rows: nat, columns: nat, m: Message)
    requires Agree(board, replica, q, own, opponent, rows, columns) && UpdateOf(m, own, opponent).None?
    ensures Agree(board, replica, q + [m], own, opponent, rows, columns)
  {
    var q' := q + [m];
    assert forall i, r, c :: 0 <= i < |q| ==> Targets(q', own, opponent, i, r, c) == Targets(q, own, opponent, i, r, c);
    forall r, c | Pending(q, own, opponent, r, c) ensures Pending(q', own, opponent, r, c) {
      var i :| 0 <= i < |q| && Targets(q, own, opponent, i, r, c);
      assert Targets(q', own, opponent, i, r, c);
    }
  }

  /** A disc dropped on a blank cell, together with the message that announces it. */
  lemma AgreeDrop(board: seq<seq<char>>, replica: seq<seq<char>>, q: seq<Message>, own: char, opponent: char,
                  rows: nat, columns: nat, m: Message)
    requires Agree(board, replica, q, own, opponent, rows, columns)
    requires UpdateOf(m, own, opponent).Some?
    requires var u := UpdateOf(m, own, opponent).value;
             0 <= u.row < rows && 0 <= u.column < columns && board[u.row][u.column] == BLANK && u.symbol != BLANK
    ensures Agree(Write(board, UpdateOf(m, own, opponent)), replica, q + [m], own, opponent, rows, columns)
  {
    var q' := q + [m];
    var u := UpdateOf(m, own, opponent).value;
    var board' := Put(board, u.row, u.column, u.symbol);
    assert forall r, c :: 0 <= r < rows && 0 <= c < columns ==>
                            board'[r][c] == if r == u.row && c == u.column then u.symbol else board[r][c];
    forall r, c | Pending(q, own, opponent, r, c) ensures Pending(q', own, opponent, r, c) && !(r == u.row && c == u.column) {
      var i :| 0 <= i < |q| && Targets(q, own, opponent, i, r, c);
      assert FillsBlank(board, replica, q[i], own, opponent, rows, columns);
      assert Targets(q', own, opponent, i, r, c);
    }
    assert Targets(q', own, opponent, |q|, u.row, u.column);
    assert replica[u.row][u.column] == BLANK;
    forall i, r, c | 0 <= i < |q| && Targets(q', own, opponent, i, r, c)
      ensures Targets(q, own, opponent, i, r, c) && !(r == u.row && c == u.column)
    {
      assert Targets(q, own, opponent, i, r, c);
      assert Pending(q, own, opponent, r, c);
    }
    forall i | 0 <= i < |q'| ensures FillsBlank(board', replica, q'[i], own, opponent, rows, columns) {
      if i < |q| {
        assert FillsBlank(board, replica, q[i], own, opponent, rows, columns);
      }
    }
  }

  /** A client may take any message of its queue: the cell it writes is on the board
      and blank, and what is left still agrees. */
  lemma AgreeTake(board: seq<seq<char>>, replica: seq<seq<char>>, q: seq<Message>, own: char, opponent: char,
                  rows: nat, columns: nat, i: nat)
    requires Agree(board, replica, q, own, opponent, rows, columns) && i < |q|
    ensures FillsBlank(board, replica, q[i], own, opponent, rows, columns)
    ensures Agree(board, Write(replica, UpdateOf(q[i], own, opponent)), RemoveAt(q, i), own, opponent, rows, columns)
  {
    var q' := RemoveAt(q, i);
    var u := UpdateOf(q[i], own, opponent);
    var replica' := Write(replica, u);
    assert FillsBlank(board, replica, q[i], own, opponent, rows, columns);
    forall j | 0 <= j < |q'| ensures FillsBlank(board, replica', q'[j], own, opponent, rows, columns) {
      var k := if j < i then j else j + 1;
      assert q'[j] == q[k] && FillsBlank(board, replica, q[k], own, opponent, rows, columns);
      var v := UpdateOf(q[k], own, opponent);
      if u.Some? && v.Some? && u.value.row == v.value.row && u.value.column == v.value.column {
        assert Targets(q, own, opponent, i, u.value.row, u.value.column) && Targets(q, own, opponent, k, u.value.row, u.value.column);
      }
    }
    forall j, k, r, c | 0 <= j < |q'| && 0 <= k < |q'| && Targets(q', own, opponent, j, r, c) && Targets(q', own, opponent, k, r, c)
      ensures j == k
    {
      var j', k' := if j < i then j else j + 1, if k < i then k else k + 1;
      assert Targets(q, own, opponent, j', r, c) && Targets(q, own, opponent, k', r, c);
    }
    forall r, c | 0 <= r < rows && 0 <= c < columns && board[r][c] != replica'[r][c]
      ensures Pending(q', own, opponent, r, c)
    {
      assert board[r][c] != replica[r][c];
      var k :| 0 <= k < |q| && Targets(q, own, opponent, k, r, c);
      assert k != i;
      assert Targets(q', own, opponent, if k < i then k else k - 1, r, c);
    }
  }

  /** The replica once every pending message has been taken, first to last. */
  function Overlay(replica: seq<seq<char>>, q: seq<Message>, own: char, opponent: char): seq<seq<char>>
    decreases |q|
  {
    if q == [] then replica else Overlay(Write(replica, UpdateOf(q[0], own, opponent)), q[1..], own, opponent)
  }

  lemma {:induction false} OverlaySnoc(cells: seq<seq<char>>, q: seq<Message>, m: Message, own: char, opponent: char)
    requires UpdateOf(m, own, opponent).None?
    ensures Overlay(cells, q + [m], own, opponent) == Overlay(cells, q, own, opponent)
    decreases |q|
  {
    if q == [] {
      assert (q + [m])[1..] == [];
    } else {
      assert (q + [m])[1..] == q[1..] + [m];
      OverlaySnoc(Write(cells, UpdateOf(q[0], own, opponent)), q[1..], m, own, opponent);
    }
  }

  /** The replica after taking the messages in the order of `picks`; each pick is a
      position of what is left of the queue. */
  function Drain(replica: seq<seq<char>>, q: seq<Message>, own: char, opponent: char, picks: seq<nat>): seq<seq<char>>
    decreases |q|
  {
    if picks == [] || picks[0] >= |q| then replica
    else Drain(Write(replica, UpdateOf(q[picks[0]], own, opponent)), RemoveAt(q, picks[0]), own, opponent, picks[1..])
  }

  /** In whatever order the pending messages are taken, the replica ends up as the board. */
  lemma {:induction false} DrainAnyOrder(board: seq<seq<char>>, replica: seq<seq<char>>, q: seq<Message>, own: char, opponent: char,
                                         rows: nat, columns: nat, picks: seq<nat>)
    requires Agree(board, replica, q, own, opponent, rows, columns)
    requires |picks| == |q| && forall k :: 0 <= k < |picks| ==> picks[k] < |q| - k
    ensures Drain(replica, q, own, opponent, picks) == board
    decreases |q|
  {
    if q == [] {
      DrainedAgrees(board, replica, own, opponent, rows, columns);
    } else {
      AgreeTake(board, replica, q, own, opponent, rows, columns, picks[0]);
      DrainAnyOrder(board, Write(replica, UpdateOf(q[picks[0]], own, opponent)), RemoveAt(q, picks[0]), own, opponent,
                    rows, columns, picks[1..]);
    }
  }

  lemma DrainedAgrees(board: seq<seq<char>>, replica: seq<seq<char>>, own: char, opponent: char, rows: nat, columns: nat)
    requires Agree(board, replica, [], own, opponent, rows, columns)
    ensures replica == board
  {
    assert forall r, c :: !Pending([], own, opponent, r, c);
    SameCells(replica, board, rows, columns);
  }

  lemma {:induction false} OverlayAgrees(board: seq<seq<char>>, replica: seq<seq<char>>, q: seq<Message>, own: char, opponent: char,
                                         rows: nat, columns: nat)
    requires Agree(board, replica, q, own, opponent, rows, columns)
    ensures Overlay(replica, q, own, opponent) == board
    decreases |q|
  {
    if q == [] {
      DrainedAgrees(board, replica, own, opponent, rows, columns);
    } else {
      AgreeTake(board, replica, q, own, opponent, rows, columns, 0);
      assert RemoveAt(q, 0) == q[1..];
      OverlayAgrees(board, Write(replica, UpdateOf(q[0], own, opponent)), q[1..], own, opponent, rows, columns);
    }
  }
}
