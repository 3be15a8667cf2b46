/** Within a match: a GAME_END taken ahead of pending updates, and when that leaves
    stale discs for the next match. */
module Staleness {
  import opened Messages
  import opened Grid
  import opened Match
  import opened MatchSafety
  import opened Replica
  import opened Agreement
  import opened Protocol

  // ----- Exactly when a reset is clean

  predicate Inked(q: seq<Message>, own: char, opponent: char) {
    forall i :: 0 <= i < |q| ==> var u := UpdateOf(q[i], own, opponent); u.Some? ==> u.value.symbol != BLANK
  }

  lemma {:induction false} OverlayQuiet(cells: seq<seq<char>>, q: seq<Message>, own: char, opponent: char)
    requires forall i :: 0 <= i < |q| ==> UpdateOf(q[i], own, opponent).None?
    ensures Overlay(cells, q, own, opponent) == cells
    decreases |q|
  {
    if q == [] {
    } else {
      OverlayQuiet(cells, q[1..], own, opponent);
    }
  }

  /** A cell that holds a disc, or that a pending message writes, ends up with a disc. */
  lemma {:induction false} OverlayMarks(cells: seq<seq<char>>, q: seq<Message>, own: char, opponent: char,
                                        rows: nat, columns: nat, r: nat, c: nat)
    requires Rectangle(cells, rows, columns) && r < rows && c < columns && Inked(q, own, opponent)
    requires cells[r][c] != BLANK || Pending(q, own, opponent, r, c)
    ensures Overlay(cells, q, own, opponent) != BlankCells(rows, columns)
    decreases |q|
  {
    if q == [] {
      assert cells[r][c] != BlankCells(rows, columns)[r][c];
    } else {
      var next, rest := Write(cells, UpdateOf(q[0], own, opponent)), q[1..];
      assert UpdateOf(q[0], own, opponent).Some? ==> UpdateOf(q[0], own, opponent).value.symbol != BLANK;
      if next[r][c] == BLANK {
        var i :| 0 <= i < |q| && Targets(q, own, opponent, i, r, c);
        assert i != 0 && Targets(rest, own, opponent, i - 1, r, c);
      }
      forall i | 0 <= i < |rest| ensures UpdateOf(rest[i], own, opponent).Some? ==> UpdateOf(rest[i], own, opponent).value.symbol != BLANK {
        assert rest[i] == q[i + 1];
      }
      OverlayMarks(next, rest, own, opponent, rows, columns, r, c);
    }
  }

  /** A client takes the only GAME_END of its queue and wipes its replica. What was
      pending then leaves the wiped replica blank exactly when no TURN_START was
      pending: the acknowledgements have a lower type and were taken before. */
  lemma ResetIsClean(board: seq<seq<char>>, replica: seq<seq<char>>, q: seq<Message>, own: char, opponent: char,
                     rows: nat, columns: nat, i: nat)
    requires Agree(board, replica, q, own, opponent, rows, columns)
    requires i < |q| && q[i].GameEnd? && Takes(q, -MSG_GAME_START, i)
    requires forall j :: 0 <= j < |q| && j != i ==> !q[j].GameEnd?
    ensures Overlay(BlankCells(rows, columns), RemoveAt(q, i), own, opponent) == BlankCells(rows, columns)
            <==> forall j :: 0 <= j < |q| ==> !q[j].TurnStart?
  {
    var rest, blank := RemoveAt(q, i), BlankCells(rows, columns);
    forall k | 0 <= k < |rest| ensures UpdateOf(rest[k], own, opponent).Some? ==>
        rest[k].TurnStart? && UpdateOf(rest[k], own, opponent).value.symbol != BLANK
    {
      var j := if k < i then k else k + 1;
      assert rest[k] == q[j] && FillsBlank(board, replica, q[j], own, opponent, rows, columns);
      assert Eligible(q[j].Type(), -MSG_GAME_START);
    }
    if j :| 0 <= j < |q| && q[j].TurnStart? {
      var u := UpdateOf(q[j], own, opponent).value;
      assert FillsBlank(board, replica, q[j], own, opponent, rows, columns);
      assert Targets(rest, own, opponent, if j < i then j else j - 1, u.row, u.column);
      OverlayMarks(blank, rest, own, opponent, rows, columns, u.row, u.column);
    } else {
      OverlayQuiet(blank, rest, own, opponent);
    }
  }

  // ----- One GAME_END per match and client

  predicate NoEnds(q: seq<Message>) { forall i :: 0 <= i < |q| ==> !q[i].GameEnd? }

  predicate OneEnd(q: seq<Message>) {
    && (forall i, j :: 0 <= i < |q| && 0 <= j < |q| && q[i].GameEnd? && q[j].GameEnd? ==> i == j)
    && (forall i :: 0 <= i < |q| && q[i].GameEnd? ==> q[i].reply.endGame)
  }

  ghost predicate EndOk(j: Joint, k: Player)
    requires WellFormed(j)
  {
    && OneEnd(j.queues[k])
    && (j.server.phase.Playing? ==> !j.seen[k])
    && (j.server.phase.Playing? || j.seen[k] ==> NoEnds(j.queues[k]))
  }

  /** A step sends a GAME_END only when it leaves the head of the loop, one to each player. */
  lemma StepEnds(s: State, w: Wake, k: Player)
    requires Good(s) && Valid(s.board) && GoodSymbols(s.symbols) && Active(s)
    ensures var ms := ToPlayer(Step(s, w).sends, k);
            && OneEnd(ms)
            && (!s.phase.Playing? || Step(s, w).state.phase.Playing? ==> NoEnds(ms))
  {
    var o := Classify(s, w);
    if o.Some? && o.value.Accepted? {
      LoudStep(s, w);
      var move := w.taken.value.move;
      var Dropped(b, row) := Drop(s.board, move, s.symbols[s.current]);
      AcceptEnds(s.(received := true, board := b, flags := Handle(s.flags, w.signals)), row, move, k);
    } else {
      QuietStep(s, w);
      QuietEnds(Step(s, w).sends, k);
    }
  }

  lemma AcceptEnds(s: State, row: nat, move: nat, k: Player)
    requires Good(s) && s.phase.Playing?
    ensures var ms := ToPlayer(Accept(s, row, move).sends, k);
            OneEnd(ms) && (Accept(s, row, move).state.phase.Playing? ==> NoEnds(ms))
  {
    AcceptAnnounces(s, row, move);
    AnnouncedEnds(Accept(s, row, move).sends, s.current, row, move, k);
    assert Accept(s, row, move).state.phase.Playing? ==> |Accept(s, row, move).sends| == 2;
  }

  lemma AnnouncedEnds(sends: seq<Send>, p: Player, row: nat, move: nat, k: Player)
    requires Announces(sends, p, row, move)
    ensures OneEnd(ToPlayer(sends, k)) && (|sends| == 2 ==> NoEnds(ToPlayer(sends, k)))
  {
    AnnounceLists(sends, p, row, move);
  }

  lemma {:induction false} QuietEnds(sends: seq<Send>, k: Player)
    requires AllQuiet(sends)
    ensures NoEnds(ToPlayer(sends, k))
  {
    if sends == [] {
    } else {
      QuietEnds(sends[..|sends| - 1], k);
    }
  }

  lemma EndKeeps(j: Joint, a: Action, k: Player)
    requires JointInv(j) && EndOk(j, k)
    ensures EndOk(Next(j, a), k)
  {
    if Enabled(j, a) {
      match a
      case Wakes(_, _, _) => WakeEnds(j, a, k);
      case _ =>
    }
  }

  lemma WakeEnds(j: Joint, a: Action, k: Player)
    requires JointInv(j) && EndOk(j, k) && a.Wakes? && Enabled(j, a)
    ensures EndOk(Next(j, a), k)
  {
    var q, ms := Remaining(j, a, k), ToPlayer(Step(j.server, WakeOf(j, a)).sends, k);
    StepEnds(j.server, WakeOf(j, a), k);
    if !j.server.phase.Playing? { StepAdvances(j.server, WakeOf(j, a)); }
    assert Next(j, a).queues[k] == q + ms;
    assert OneEnd(q) && (j.server.phase.Playing? || j.seen[k] ==> NoEnds(q));
  }

  /** The loop never returns to its head from the wait for the winner's answer. */
  lemma StepAdvances(s: State, w: Wake)
    requires Good(s) && !s.phase.Playing?
    ensures !Step(s, w).state.phase.Playing?
  {
  }

  lemma {:induction false} ReachEnds(j: Joint, actions: seq<Action>, k: Player)
    requires JointInv(j) && EndOk(j, k)
    ensures EndOk(Reach(j, actions), k)
  {
    if actions == [] {
    } else {
      ReachKeeps(j, actions[..|actions| - 1]);
      ReachEnds(j, actions[..|actions| - 1], k);
      EndKeeps(Reach(j, actions[..|actions| - 1]), actions[|actions| - 1], k);
    }
  }

  // ----- Both players, in every interleaving

  /** Client k takes the GAME_END at position i and is ready for the next match: at once
      if it lost, after asking for the restart if it won. */
  ghost function Restarted(j: Joint, k: Player, i: nat): (j': Joint)
    requires WellFormed(j) && i < |j.queues[k]| && j.queues[k][i].GameEnd?
    ensures WellFormed(j')
  {
    var t := Next(j, Receives(k, i));
    if j.queues[k][i].reply.winner then Next(t, Answers(k, Restart)) else t
  }

  /** In every interleaving of one match, up to the start of the next, for the loser and for
      a winner who restarts: the client wipes its replica, and what was pending leaves the
      replica blank exactly when no TURN_START was. */
  lemma RematchReplica(j: Joint, s: State, first: Player, actions: seq<Action>, k: Player, i: nat)
    requires MatchStart(j, s, first) && NoEnds(j.queues[k])
    requires var t := Reach(j, actions);
             Enabled(t, Receives(k, i)) && t.queues[k][i].GameEnd? && !t.queues[k][i].reply.draw
    ensures var t := Reach(j, actions);
            var t' := Restarted(t, k, i);
            var blank := BlankCells(s.board.rows, s.board.columns);
            && t'.clients[k].mode.Ready? && t'.clients[k].cells == blank
            && (Overlay(t'.clients[k].cells, t'.queues[k], s.symbols[k], s.symbols[Other(k)]) == blank
                <==> forall n :: 0 <= n < |t.queues[k]| ==> !t.queues[k][n].TurnStart?)
  {
    StartKeeps(j, s, first);
    ReachKeeps(j, actions);
    ReachEnds(j, actions, k);
    RestartIsClean(Reach(j, actions), k, i);
  }

  lemma RestartIsClean(j: Joint, k: Player, i: nat)
    requires JointInv(j) && EndOk(j, k) && Enabled(j, Receives(k, i)) && j.queues[k][i].GameEnd? && !j.queues[k][i].reply.draw
    ensures var j' := Restarted(j, k, i);
            var blank := BlankCells(j.server.board.rows, j.server.board.columns);
            && j'.clients[k].mode.Ready? && j'.clients[k].cells == blank
            && (Overlay(j'.clients[k].cells, j'.queues[k], j.server.symbols[k], j.server.symbols[Other(k)]) == blank
                <==> forall n :: 0 <= n < |j.queues[k]| ==> !j.queues[k][n].TurnStart?)
  {
    var q, own, opponent := j.queues[k], j.server.symbols[k], j.server.symbols[Other(k)];
    var rows, columns, blank := j.server.board.rows, j.server.board.columns, Blank(j);
    assert ClientOk(j, k) && Consistent(j, k) && IsClient(j, k);
    AgreeTake(j.reference, j.clients[k].cells, q, own, opponent, rows, columns, i);
    WipeIsBlank(Write(j.clients[k].cells, UpdateOf(q[i], own, opponent)), rows, columns);
    ResetIsClean(j.reference, j.clients[k].cells, q, own, opponent, rows, columns, i);
    OverlaySnoc(blank, RemoveAt(q, i), ClientMove(Request(0, true)), own, opponent);
    RestartForm(j, k, i);
  }

  lemma RestartForm(j: Joint, k: Player, i: nat)
    requires WellFormed(j) && Enabled(j, Receives(k, i)) && j.queues[k][i].GameEnd?
    requires !j.queues[k][i].reply.draw && j.queues[k][i].reply.endGame
    ensures var q, j' := j.queues[k], Restarted(j, k, i);
            var written := Write(j.clients[k].cells, UpdateOf(q[i], j.clients[k].own, j.clients[k].opponent));
            && j'.clients[k].mode.Ready? && j'.clients[k].cells == Wipe(written)
            && j'.queues[k] == RemoveAt(q, i) + if q[i].reply.winner then [ClientMove(Request(0, true))] else []
  {
  }
}
