/** The promises of one match, each for every run of it. */
module MatchTheorems {
  import opened Messages
  import opened Grid
  import opened Match
  import opened MatchSafety

  // ----- Wins and draws

  /** At every head of the loop neither symbol has four in line; while the winner's
      answer is awaited the player to move has, and the opponent has not. */
  lemma {:induction false} WinSoundness(s: State, first: Player, ws: seq<Wake>)
    requires Startable(s)
    ensures var t := Play(Begin(s, first), ws).st;
            && (t.phase.Playing? ==> !FourInLine(t.board, s.symbols[0]) && !FourInLine(t.board, s.symbols[1]))
            && (t.phase.Deciding? ==>
                  FourInLine(t.board, s.symbols[t.current]) && !FourInLine(t.board, s.symbols[Other(t.current)]))
  {
    EveryRun(s, first, ws);
  }

  /** Every accepted move of every run: the match goes to the winner's decision
      exactly when some line passes through the dropped disc, and then every line
      on the board does and is the mover's. */
  lemma {:induction false} WinIsLocal(s: State, first: Player, ws: seq<Wake>, w: Wake)
    requires Startable(s)
    ensures var r := Play(Begin(s, first), ws);
            var t := RunStep(r, w).st;
            match Classify(r.st, w)
            case Some(Accepted(p, row, column)) =>
              && p == r.st.current
              && (t.phase.Deciding? <==> FourInLine(t.board, s.symbols[p]))
              && LinesThrough(t.board, s.symbols[p], row, column)
              && !FourInLine(t.board, s.symbols[Other(p)])
            case _ => r.st.phase.Playing? ==> !t.phase.Deciding?
  {
    EveryRun(s, first, ws);
    StepIsLocal(Play(Begin(s, first), ws), w);
  }

  lemma StepIsLocal(r: Run, w: Wake)
    requires Inv(r)
    ensures var t := Step(r.st, w).state;
            match Classify(r.st, w)
            case Some(Accepted(p, row, column)) =>
              && p == r.st.current
              && (t.phase.Deciding? <==> FourInLine(t.board, r.st.symbols[p]))
              && LinesThrough(t.board, r.st.symbols[p], row, column)
              && !FourInLine(t.board, r.st.symbols[Other(p)])
            case _ => r.st.phase.Playing? ==> !t.phase.Deciding?
  {
    match Classify(r.st, w)
    case Some(Accepted(p, _, _)) => MoveIsLocal(r.st.(flags := Handle(r.st.flags, w.signals)), w.taken.value.move);
    case Some(Rejected(p)) => DropMeaning(r.st.board, w.taken.value.move, r.st.symbols[p]);
    case _ =>
  }

  lemma MoveIsLocal(s: State, move: Int32)
    requires Good(s) && GoodSymbols(s.symbols) && Valid(s.board) && NoLine(s) && HasRoom(s.board, move)
    requires s.phase.Playing?
    ensures var t := Move(s, move).state;
            && (t.phase.Deciding? <==> FourInLine(t.board, s.symbols[s.current]))
            && LinesThrough(t.board, s.symbols[s.current], s.board.rowsIndex[move] as int - 1, move)
            && !FourInLine(t.board, s.symbols[Other(s.current)])
  {
    AcceptFacts(s, move);
    MoveResult(s, move);
  }

  lemma MoveResult(s: State, move: Int32)
    requires Good(s) && s.phase.Playing?
    ensures var Dropped(b, row) := Drop(s.board, move, s.symbols[s.current]);
            var t := Move(s, move).state;
            row >= 0 ==> t.board == b && (t.phase.Deciding? <==> FourInLine(b, s.symbols[s.current]))
  {
  }

  /** The match ends as a draw exactly when every cell is occupied and neither
      symbol has four in line; a last-cell win is never a draw. */
  lemma {:induction false} DrawExact(s: State, first: Player, ws: seq<Wake>)
    requires Startable(s)
    ensures var t := Play(Begin(s, first), ws).st;
            NoWrap(s.board) ==>
              (t.phase == Ended(-4) <==>
               Full(t.board) && !FourInLine(t.board, s.symbols[0]) && !FourInLine(t.board, s.symbols[1]))
  {
    EveryRun(s, first, ws);
  }

  /** The 32-bit test for the last move is right for every move of the board
      exactly when the number of cells fits in 32 bits. The parser lets larger
      boards through. */
  lemma DrawGuard(b: Board, cells: int)
    requires cells == b.rows * b.columns >= 1
    ensures (forall m :: 1 <= m <= cells ==> (IsLast(b, m) <==> m == cells)) <==> NoWrap(b)
  {
    assert MaxMoves(b) == cells % TWO32;
    if cells >= TWO32 {
      assert !IsLast(b, cells);
    }
  }

  /** The server's test for the last move, on the counter already incremented. */
  predicate IsLast(b: Board, m: int) { m == MaxMoves(b) }

  // ----- Turns and bounds

  /** At every head of the loop the turns taken by the two players are equal if the
      first is to move, and differ by one otherwise; each player's accepted moves
      are the discs of that player's symbol. */
  lemma {:induction false} FairTurns(s: State, first: Player, ws: seq<Wake>)
    requires Startable(s)
    ensures var r := Play(Begin(s, first), ws);
            var h, o := r.history, Other(first);
            r.st.phase.Playing? ==>
              && (Moves(h, first) + Timeouts(h, first)) - (Moves(h, o) + Timeouts(h, o))
                 == (if r.st.current == first then 0 else 1)
              && Moves(h, 0) == |CellsOf(r.st.board, s.symbols[0])|
              && Moves(h, 1) == |CellsOf(r.st.board, s.symbols[1])|
  {
    EveryRun(s, first, ws);
  }

  /** A refused move changes neither the turn nor the board, and is answered by
      error 400; in every run it is refused exactly when the column does not exist
      or its top cell is occupied. */
  lemma {:induction false} RefusalExact(s: State, first: Player, ws: seq<Wake>, w: Wake)
    requires Startable(s)
    ensures var r := Play(Begin(s, first), ws);
            Refuses(r.st, w) <==> Send(r.st.current, Error(400, InvalidMove)) in Step(r.st, w).sends
    ensures var r := Play(Begin(s, first), ws);
            var t := Step(r.st, w);
            Refuses(r.st, w) ==>
              && w.taken.Some? && !HasRoom(r.st.board, w.taken.value.move)
              && t.state == r.st.(received := true, flags := t.state.flags)
              && t.sends == [Send(r.st.current, Error(400, InvalidMove))]
  {
    EveryRun(s, first, ws);
    StepRefuses(Play(Begin(s, first), ws).st, w);
  }

  lemma StepRefuses(s: State, w: Wake)
    requires Good(s) && GoodSymbols(s.symbols) && Valid(s.board)
    ensures var t := Step(s, w);
            && (Refuses(s, w) <==> Send(s.current, Error(400, InvalidMove)) in t.sends)
            && (Refuses(s, w) ==>
                  && w.taken.Some? && !HasRoom(s.board, w.taken.value.move)
                  && t.state == s.(received := true, flags := t.state.flags)
                  && t.sends == [Send(s.current, Error(400, InvalidMove))])
  {
    if s.phase.Playing? && w.taken.Some? {
      DropMeaning(s.board, w.taken.value.move, s.symbols[s.current]);
    }
  }

  ghost predicate Refuses(s: State, w: Wake)
    requires Good(s)
  {
    Classify(s, w) == Some(Rejected(s.current))
  }

  /** At every head of the loop the move counter is the number of occupied cells
      and the sum over the height index; if the number of cells fits in 32 bits the
      counter is below it, so some column accepts a drop. */
  lemma {:induction false} CounterAtHead(s: State, first: Player, ws: seq<Wake>)
    requires Startable(s)
    ensures var t := Play(Begin(s, first), ws).st;
            t.phase.Playing? ==>
              && Valid(t.board)
              && t.moves == Filled(t.board) == |Occupied(t.board)|
              && (NoWrap(s.board) ==>
                    t.moves < t.board.rows * t.board.columns && exists c :: HasRoom(t.board, c))
    ensures var t := Play(Begin(s, first), ws).st; t.phase.Deciding? ==> t.moves + 1 == Filled(t.board) == |Occupied(t.board)|
  {
    EveryRun(s, first, ws);
    CounterAgreement(Play(Begin(s, first), ws).st.board);
  }

  /** A match has at most rows*columns accepted moves and 3*rows*columns + 8 timeouts; if
      the number of cells fits in 32 bits, at most 3*rows*columns + 4. */
  lemma {:induction false} BoundedMatch(s: State, first: Player, ws: seq<Wake>)
    requires Startable(s)
    ensures var r := Play(Begin(s, first), ws);
            var cells := s.board.rows * s.board.columns;
            && Moves(r.history, 0) + Moves(r.history, 1) <= cells
            && Timeouts(r.history, 0) + Timeouts(r.history, 1) <= 3 * cells + 8
            && (NoWrap(s.board) ==> Timeouts(r.history, 0) + Timeouts(r.history, 1) <= 3 * cells + 4)
            && (r.st.phase.Playing? ==> Patient(r, 0) && Patient(r, 1))
  {
    EveryRun(s, first, ws);
    StreakAtMostFour(s, first, ws);
  }

  predicate Patient(r: Run, p: Player)
    requires |r.st.timeouts| == 2
  {
    r.st.timeouts[p] <= MAX_TIMEOUT_MATCH && Timeouts(r.history, p) <= 3 * Moves(r.history, p) + r.st.timeouts[p]
  }

  /** The lexicographic measure of a run. */
  ghost function CellsLeft(r: Run): int {
    r.st.board.rows * r.st.board.columns - Moves(r.history, 0) - Moves(r.history, 1)
  }

  ghost function PatienceLeft(r: Run): int { 7 - Streak(r.history, 0) - Streak(r.history, 1) }

  /** Every wake-up ends the match, or lowers the measure, or is a refused move or
      an interruption without a flag; those two leave the measure alone. */
  lemma {:induction false} MeasureDecreases(s: State, first: Player, ws: seq<Wake>, w: Wake)
    requires Startable(s)
    ensures var r := Play(Begin(s, first), ws);
            var r' := RunStep(r, w);
            var o := Classify(r.st, w);
            r.st.phase.Playing? && r'.st.phase.Playing? ==>
              && 0 <= CellsLeft(r') && 1 <= PatienceLeft(r')
              && (if o.Some? && !o.value.Rejected?
                  then CellsLeft(r') < CellsLeft(r) ||
                       (CellsLeft(r') == CellsLeft(r) && PatienceLeft(r') < PatienceLeft(r))
                  else CellsLeft(r') == CellsLeft(r) && PatienceLeft(r') == PatienceLeft(r))
  {
    EveryRun(s, first, ws);
    StepMeasure(Play(Begin(s, first), ws), w);
  }

  lemma StepMeasure(r: Run, w: Wake)
    requires Inv(r)
    ensures var r', o := RunStep(r, w), Classify(r.st, w);
            r.st.phase.Playing? && r'.st.phase.Playing? ==>
              && 0 <= CellsLeft(r') && 1 <= PatienceLeft(r')
              && (if o.Some? && !o.value.Rejected?
                  then CellsLeft(r') < CellsLeft(r) ||
                       (CellsLeft(r') == CellsLeft(r) && PatienceLeft(r') < PatienceLeft(r))
                  else CellsLeft(r') == CellsLeft(r) && PatienceLeft(r') == PatienceLeft(r))
  {
    StepKeeps(r, w);
    if r.st.phase.Playing? && RunStep(r, w).st.phase.Playing? {
      StaysByTurn(r.st, w);
      HistoryMeasure(r, RunStep(r, w), Classify(r.st, w));
    }
  }

  lemma StaysByTurn(s: State, w: Wake)
    requires Good(s) && s.phase.Playing? && Step(s, w).state.phase.Playing?
    ensures var o := Classify(s, w); o.Some? ==> !o.value.Stopped? && !o.value.Answered?
  {
  }

  lemma HistoryMeasure(r: Run, r': Run, o: Option<Outcome>)
    requires Inv(r) && Inv(r') && r.st.phase.Playing? && r'.st.phase.Playing? && SameGame(r.st, r'.st)
    requires r'.history == if o.None? then r.history else r.history + [o.value]
    requires o.Some? ==> !o.value.Stopped? && !o.value.Answered?
    ensures 0 <= CellsLeft(r') && 1 <= PatienceLeft(r')
    ensures if o.Some? && !o.value.Rejected?
            then CellsLeft(r') < CellsLeft(r) ||
                 (CellsLeft(r') == CellsLeft(r) && PatienceLeft(r') < PatienceLeft(r))
            else CellsLeft(r') == CellsLeft(r) && PatienceLeft(r') == PatienceLeft(r)
  {
    if o.Some? {
      HistorySnoc(r.history, o.value, 0);
      HistorySnoc(r.history, o.value, 1);
    }
  }

  /** The match ends by forfeit exactly when the player to move times out for the
      fourth time since that player's last accepted move. */
  lemma {:induction false} ForfeitExact(s: State, first: Player, ws: seq<Wake>)
    requires Startable(s)
    ensures var r := Play(Begin(s, first), ws);
            r.st.phase == Ended(-3) <==>
            r.history != [] && r.history[|r.history| - 1].Expired? &&
            Streak(r.history, r.history[|r.history| - 1].player) == MAX_TIMEOUT_MATCH + 1
  {
    StreakAtMostFour(s, first, ws);
    EveryRun(s, first, ws);
  }

  lemma {:induction false} StreakAtMostFour(s: State, first: Player, ws: seq<Wake>)
    requires Startable(s)
    ensures var r := Play(Begin(s, first), ws);
            Streak(r.history, 0) <= MAX_TIMEOUT_MATCH + 1 && Streak(r.history, 1) <= MAX_TIMEOUT_MATCH + 1
  {
    if ws == [] {
    } else {
      var r := Play(Begin(s, first), ws[..|ws| - 1]);
      var w := ws[|ws| - 1];
      StreakAtMostFour(s, first, ws[..|ws| - 1]);
      EveryRun(s, first, ws[..|ws| - 1]);
      var o := Classify(r.st, w);
      if o.Some? {
        HistorySnoc(r.history, o.value, 0);
        HistorySnoc(r.history, o.value, 1);
      }
    }
  }

  // ----- Disconnections

  /** How many of the signals come from client `p`. */
  function From(sigs: seq<Signal>, p: Player): nat {
    if sigs == [] then 0
    else From(sigs[..|sigs| - 1], p) +
         var sig := sigs[|sigs| - 1];
         if (sig == SigUsr1 && p == 0) || (sig == SigUsr2 && p == 1) then 1 else 0
  }

  function FromAll(ws: seq<Wake>, p: Player): nat {
    if ws == [] then 0 else FromAll(ws[..|ws| - 1], p) + From(ws[|ws| - 1].signals, p)
  }

  /** The flags after `n0` and `n1` disconnection signals. */
  predicate Heard(f: Flags, n0: nat, n1: nat) {
    && |f.disconnected| == 2
    && f.counter == n0 + n1
    && (f.disconnected[0] <==> n0 > 0)
    && (f.disconnected[1] <==> n1 > 0)
    && (f.happened <==> n0 + n1 > 0)
  }

  lemma {:induction false} HandleCounts(f: Flags, sigs: seq<Signal>, n0: nat, n1: nat)
    requires Heard(f, n0, n1) && !Handle(f, sigs).killed
    ensures Heard(Handle(f, sigs), n0 + From(sigs, 0), n1 + From(sigs, 1))
  {
    if sigs == [] {
    } else {
      HandleCounts(f, sigs[..|sigs| - 1], n0, n1);
    }
  }

  /** The flags at a blocked receive tell the signals heard before the match and in it. */
  lemma {:induction false} ActiveFlags(s: State, first: Player, ws: seq<Wake>, a: nat, b: nat)
    requires Good(s) && Heard(s.flags, a, b)
    ensures var t := Play(Begin(s, first), ws).st;
            Active(t) ==> Heard(t.flags, a + FromAll(ws, 0), b + FromAll(ws, 1))
  {
    if ws == [] {
    } else {
      var t, w := Play(Begin(s, first), ws[..|ws| - 1]).st, ws[|ws| - 1];
      ActiveFlags(s, first, ws[..|ws| - 1], a, b);
      if Active(Step(t, w).state) {
        StepFlags(t, w);
        HandleCounts(t.flags, w.signals, a + FromAll(ws[..|ws| - 1], 0), b + FromAll(ws[..|ws| - 1], 1));
      }
    }
  }

  /** A wake-up that leaves the match going changes the flags by its signals only,
      but for the timeout and SIGINT flags. */
  lemma StepFlags(s: State, w: Wake)
    requires Good(s) && Active(Step(s, w).state)
    ensures Active(s)
    ensures var f, g := Handle(s.flags, w.signals), Step(s, w).state.flags;
            !f.killed && g == f.(timeout := g.timeout, ctrlC := g.ctrlC)
  {
  }

  /** The exit after a disconnection, for every run that reaches it, whoever had
      signalled before the match began. With n0 and n1 the signals heard when the flag
      is tested and m0 and m1 those heard when the counter is: nobody is told if both
      clients left; otherwise exactly the first client not heard from gets error 601.
      If no client signals twice, the loop returns -2 exactly when one client left, and
      -1 when both did. */
  lemma {:induction false} DisconnectExit(s: State, first: Player, ws: seq<Wake>, w: Wake, a: nat, b: nat)
    requires Good(s) && Heard(s.flags, a, b)
    ensures Departs(Play(Begin(s, first), ws).st, w, a + FromAll(ws, 0), b + FromAll(ws, 1))
  {
    ActiveFlags(s, first, ws, a, b);
    StepDeparts(Play(Begin(s, first), ws).st, w, a + FromAll(ws, 0), b + FromAll(ws, 1));
  }

  /** What `w` does if it ends the match because a client left, when a0 and a1 signals
      came before it. */
  ghost predicate Departs(s: State, w: Wake, a0: nat, a1: nat)
    requires Good(s)
  {
    var t := Step(s, w);
    var n0, n1 := a0 + From(w.signals, 0), a1 + From(w.signals, 1);
    var m0, m1 := n0 + From(w.late, 0), n1 + From(w.late, 1);
    Classify(s, w) == Some(Stopped) && t.state.phase != Killed ==>
      && n0 + n1 > 0
      && (n0 > 0 && n1 > 0 ==> t.sends == [] && t.state.phase == Ended(-1))
      && (n0 == 0 ==> t.sends == [Send(0, Error(601, OpponentDisconnected))])
      && (n0 > 0 && n1 == 0 ==> t.sends == [Send(1, Error(601, OpponentDisconnected))])
      && (!(n0 > 0 && n1 > 0) ==> t.state.phase == Ended(if m0 + m1 == 2 then -1 else -2))
      && (!(n0 > 0 && n1 > 0) && m0 <= 1 && m1 <= 1 ==>
            (t.state.phase == Ended(-2) <==> !(m0 > 0 && m1 > 0)))
  }

  lemma StepDeparts(s: State, w: Wake, a0: nat, a1: nat)
    requires Good(s) && (Active(s) ==> Heard(s.flags, a0, a1))
    ensures Departs(s, w, a0, a1)
  {
    if Classify(s, w) == Some(Stopped) && Step(s, w).state.phase != Killed {
      HandleCounts(s.flags, w.signals, a0, a1);
      var f := Handle(s.flags, w.signals);
      if FirstConnected(f).Some? {
        HandleCounts(f, w.late, a0 + From(w.signals, 0), a1 + From(w.signals, 1));
      }
    }
  }

  /** The end of the winner's decision, for every run that reaches it: a rematch if the
      winner asks for one, whoever else has left; silence if the wait was interrupted
      and both clients left; otherwise the player who did not win is told, even one who
      has left. */
  lemma {:induction false} DecisionExit(s: State, first: Player, ws: seq<Wake>, w: Wake, a: nat, b: nat)
    requires Good(s) && Heard(s.flags, a, b)
    ensures Concludes(Play(Begin(s, first), ws).st, w, a + FromAll(ws, 0), b + FromAll(ws, 1))
  {
    ActiveFlags(s, first, ws, a, b);
    StepConcludes(Play(Begin(s, first), ws).st, w, a + FromAll(ws, 0), b + FromAll(ws, 1));
  }

  /** What `w` does if it ends the winner's decision, when a0 and a1 signals came before it. */
  ghost predicate Concludes(s: State, w: Wake, a0: nat, a1: nat)
    requires Good(s)
  {
    var t := Step(s, w);
    var n0, n1 := a0 + From(w.signals, 0), a1 + From(w.signals, 1);
    Classify(s, w) == Some(Answered) && t.state.phase != Killed ==>
      && t.state.phase == Ended(if w.taken.Some? && w.taken.value.restartMatch then s.current else -1)
      && t.sends == (if (w.taken.Some? && w.taken.value.restartMatch) || (w.taken.None? && n0 > 0 && n1 > 0) then []
                     else [Send(Other(s.current), Error(602, OpponentStops))])
  }

  lemma StepConcludes(s: State, w: Wake, a0: nat, a1: nat)
    requires Good(s) && (Active(s) ==> Heard(s.flags, a0, a1))
    ensures Concludes(s, w, a0, a1)
  {
    if Classify(s, w) == Some(Answered) && Step(s, w).state.phase != Killed {
      HandleCounts(s.flags, w.signals, a0, a1);
    }
  }

  /** A match granted after a client left begins with the disconnection flag up. */
  lemma GrantedAfterDeparture(s: State)
    requires Good(s) && s.phase.Deciding? && Heard(s.flags, 0, 0) && !s.flags.killed
    ensures var t := Step(s, Wake([SigUsr1], Some(Request(0, true)), [])).state;
            t.phase == Ended(s.current) && Heard(t.flags, 1, 0) && Heard(Begin(t, Other(s.current)).st.flags, 1, 0)
  {
    HandleCounts(s.flags, [SigUsr1], 0, 0);
    assert Handle(s.flags, [SigUsr1]) == HandleOne(Handle(s.flags, []), SigUsr1) by {
      assert [SigUsr1][..0] == [];
    }
    assert From([SigUsr1], 0) == 1 && From([SigUsr1], 1) == 0 by { assert [SigUsr1][..0] == []; }
  }

  /** The counter is the number of clients marked exactly when no client signalled twice. */
  lemma CounterIsMarked(f: Flags, n0: nat, n1: nat)
    requires Heard(f, n0, n1)
    ensures f.counter == (if f.disconnected[0] then 1 else 0) + (if f.disconnected[1] then 1 else 0)
            <==> n0 <= 1 && n1 <= 1
  {
  }
}
