/** The server's main loop: matches played one after another. */
module Session {
  import opened Messages
  import opened Grid
  import opened Match
  import opened MatchSafety
  import opened MatchTheorems

  /** The match returned a player index, so the main loop starts another. */
  predicate Again(r: Run) { r.st.phase == Ended(0) || r.st.phase == Ended(1) }

  /** What the main loop hands to match `k`: the state left by the previous match,
      and the player whom it did not return. */
  function OpeningState(runs: seq<Run>, s: State, k: nat): State
    requires k <= |runs|
  {
    if k == 0 then s else runs[k - 1].st
  }

  function Opener(runs: seq<Run>, first: Player, k: nat): Player
    requires k <= |runs| && (k > 0 ==> Again(runs[k - 1]))
  {
    if k == 0 then first else Other(runs[k - 1].st.phase.status)
  }

  ghost predicate IsMatch(runs: seq<Run>, s: State, first: Player, schedule: seq<seq<Wake>>, k: nat)
    requires k < |runs| <= |schedule|
  {
    && (k > 0 ==> Again(runs[k - 1]))
    && Good(OpeningState(runs, s, k))
    && runs[k] == Play(Begin(OpeningState(runs, s, k), Opener(runs, first, k)), schedule[k])
  }

  /** `runs` are the first matches of a session; `schedule` lists the wake-ups of each. */
  ghost predicate Played(runs: seq<Run>, s: State, first: Player, schedule: seq<seq<Wake>>) {
    |runs| <= |schedule| && forall k :: 0 <= k < |runs| ==> IsMatch(runs, s, first, schedule, k)
  }

  /** The session goes on for as long as matches return a player index. */
  ghost predicate Complete(runs: seq<Run>, schedule: seq<seq<Wake>>) {
    runs != [] && (Again(runs[|runs| - 1]) ==> |runs| == |schedule|)
  }

  /** All the messages of a session. */
  ghost function AllSent(runs: seq<Run>): seq<Send> {
    if runs == [] then [] else AllSent(runs[..|runs| - 1]) + runs[|runs| - 1].log
  }

  /** All the signals of a session. */
  ghost function AllKills(runs: seq<Run>): seq<Kill> {
    if runs == [] then [] else AllKills(runs[..|runs| - 1]) + runs[|runs| - 1].kills
  }

  lemma AllSentSnoc(before: seq<Send>, killed: seq<Kill>, past: seq<Run>, r: Run)
    ensures before + AllSent(past + [r]) == before + AllSent(past) + r.log
    ensures killed + AllKills(past + [r]) == killed + AllKills(past) + r.kills
  {
    assert (past + [r])[..|past|] == past;
    assert before + (AllSent(past) + r.log) == before + AllSent(past) + r.log;
    assert killed + (AllKills(past) + r.kills) == killed + AllKills(past) + r.kills;
  }

  /** The next match of the session may start on `t` with `opener` to move. */
  ghost predicate Opens(runs: seq<Run>, s: State, first: Player, schedule: seq<seq<Wake>>, t: State, opener: Player) {
    var u := OpeningState(runs, s, |runs|);
    && Played(runs, s, first, schedule) && Good(t) && t == u.(phase := t.phase, received := t.received)
    && (runs != [] ==> Again(runs[|runs| - 1])) && opener == Opener(runs, first, |runs|)
  }

  /** One more match. A match depends on nothing in the previous state that
      `server_loop` overwrites, so it may be played from `t`. */
  lemma PlayedSnoc(runs: seq<Run>, s: State, first: Player, schedule: seq<seq<Wake>>, t: State, r: Run)
    requires |runs| < |schedule| && (runs != [] ==> Again(runs[|runs| - 1]))
    requires Opens(runs, s, first, schedule, t, Opener(runs, first, |runs|))
    requires r == Play(Begin(t, Opener(runs, first, |runs|)), schedule[|runs|])
    ensures Played(runs + [r], s, first, schedule)
  {
    var n, next := |runs|, runs + [r];
    var u := OpeningState(runs, s, n);
    assert Begin(u, Opener(runs, first, n)) == Begin(t, Opener(runs, first, n));
    forall k | 0 <= k < |next| ensures IsMatch(next, s, first, schedule, k) {
      if k < n {
        assert IsMatch(runs, s, first, schedule, k);
        assert OpeningState(next, s, k) == OpeningState(runs, s, k) && Opener(next, first, k) == Opener(runs, first, k);
      }
    }
  }

  /** The wake-up that grants a rematch: the match was won, the return value is the
      index of the player with four in line, that player asked for the restart, and
      the board is again the one that initialisation produces. */
  lemma {:induction false} RematchStep(r: Run, w: Wake)
    requires Inv(r) && !Rematch(r.st) && Rematch(Step(r.st, w).state)
    ensures var t := Step(r.st, w).state;
            && r.st.phase.Deciding?
            && t.phase.status == r.st.current
            && FourInLine(r.st.board, r.st.symbols[t.phase.status])
            && w.taken.Some? && w.taken.value.restartMatch
            && Startable(t)
  {
    if r.st.phase.Playing? {
      PlayingEnds(r.st, w);
    } else {
      DecidingEnds(r.st, w);
    }
  }

  lemma DecidingEnds(s: State, w: Wake)
    requires Good(s) && !s.phase.Playing? && !Rematch(s) && Rematch(Step(s, w).state)
    ensures var t := Step(s, w).state;
            && s.phase.Deciding? && t.phase.status == s.current
            && w.taken.Some? && w.taken.value.restartMatch
            && t.board == Init(s.board.rows, s.board.columns) && t.moves == 0 && t.symbols == s.symbols
  {
  }

  /** A wake-up at the head of the loop never returns a player index. */
  lemma PlayingEnds(s: State, w: Wake)
    requires Good(s) && s.phase.Playing?
    ensures !Rematch(Step(s, w).state)
  {
    if w.taken.Some? {
      var t := s.(flags := Handle(s.flags, w.signals));
      assert !Rematch(Move(t, w.taken.value.move).state);
    }
  }

  /** In every session each match begins with the board of `game_init`, keeps the
      invariant of a match throughout, and, after the first, is started by the player
      whom the previous one did not return, who gets its first message. */
  lemma {:induction false} RematchRuns(runs: seq<Run>, s: State, first: Player, schedule: seq<seq<Wake>>, k: nat)
    requires Played(runs, s, first, schedule) && Startable(s) && k < |runs|
    ensures IsMatch(runs, s, first, schedule, k)
    ensures var u, f := OpeningState(runs, s, k), Opener(runs, first, k);
            && Startable(u) && SameGame(s, u)
            && Begin(u, f).log == [Send(f, GameStart(NO_UPDATE))]
            && (k > 0 ==> u.phase == Ended(Other(f)))
    ensures Inv(runs[k])
  {
    assert IsMatch(runs, s, first, schedule, k);
    if k == 0 {
    } else {
      RematchRuns(runs, s, first, schedule, k - 1);
      ReadyAgain(runs[k - 1]);
      assert IsMatch(runs, s, first, schedule, k - 1);
    }
    EveryRun(OpeningState(runs, s, k), Opener(runs, first, k), schedule[k]);
  }

  /** A rematch is granted by one wake-up of the run. */
  lemma {:induction false} GrantedAt(r: Run, ws: seq<Wake>) returns (i: nat)
    requires Good(r.st) && !Rematch(r.st) && Rematch(Play(r, ws).st)
    ensures i < |ws| && !Rematch(Play(r, ws[..i]).st)
    ensures Rematch(Step(Play(r, ws[..i]).st, ws[i]).state) && Step(Play(r, ws[..i]).st, ws[i]).state == Play(r, ws).st
  {
    var n := |ws| - 1;
    if Rematch(Play(r, ws[..n]).st) {
      i := GrantedAt(r, ws[..n]);
      assert ws[..n][..i] == ws[..i];
    } else {
      i := n;
    }
  }

  /** Wake-up `i` of match `k` took the restart request of `winner`, who had four in line. */
  ghost predicate AsksAt(runs: seq<Run>, s: State, first: Player, schedule: seq<seq<Wake>>, k: nat, i: nat, winner: Player)
    requires Good(s) && Played(runs, s, first, schedule) && k < |runs| && i < |schedule[k]|
    requires IsMatch(runs, s, first, schedule, k)
  {
    var t := Play(Begin(OpeningState(runs, s, k), Opener(runs, first, k)), schedule[k][..i]).st;
    && t.phase.Deciding? && t.current == winner && FourInLine(t.board, s.symbols[winner])
    && !FourInLine(t.board, s.symbols[Other(winner)])
    && schedule[k][i].taken.Some? && schedule[k][i].taken.value.restartMatch
  }

  /** In every session, every match after the first is owed to the player who does not
      start it: that player had four in line in the match before, alone, and the server
      took that player's request to restart. */
  lemma {:induction false} RematchIsEarned(runs: seq<Run>, s: State, first: Player, schedule: seq<seq<Wake>>, k: nat)
    returns (i: nat)
    requires Played(runs, s, first, schedule) && Startable(s) && 0 < k < |runs|
    ensures IsMatch(runs, s, first, schedule, k - 1) && IsMatch(runs, s, first, schedule, k)
    ensures i < |schedule[k - 1]| && AsksAt(runs, s, first, schedule, k - 1, i, Other(Opener(runs, first, k)))
  {
    assert IsMatch(runs, s, first, schedule, k);
    RematchRuns(runs, s, first, schedule, k - 1);
    var u, f := OpeningState(runs, s, k - 1), Opener(runs, first, k - 1);
    i := GrantedAt(Begin(u, f), schedule[k - 1]);
    EveryRun(u, f, schedule[k - 1][..i]);
    RematchStep(Play(Begin(u, f), schedule[k - 1][..i]), schedule[k - 1][i]);
    WinSoundness(u, f, schedule[k - 1][..i]);
  }

  lemma ReadyAgain(r: Run)
    requires Inv(r) && Again(r)
    ensures Startable(r.st)
  {
  }
}
