/** Clients that leave during a session: the flags are never lowered, so a departure in
    one match is felt in the next. */
module Departures {
  import opened Messages
  import opened Match
  import opened MatchSafety
  import opened MatchTheorems
  import opened Session

  /** Signals of client `p` that the match handled before it ended. */
  ghost function Heeded(r: Run, ws: seq<Wake>, p: Player): nat
    requires Good(r.st)
  {
    if ws == [] then 0
    else
      var n := |ws| - 1;
      Heeded(r, ws[..n], p) + if Active(Play(r, ws[..n]).st) then From(ws[n].signals, p) else 0
  }

  /** A match that goes on has handled every signal so far. */
  lemma {:induction false} HeededIsAll(r: Run, ws: seq<Wake>, p: Player)
    requires Good(r.st) && Active(Play(r, ws).st)
    ensures Heeded(r, ws, p) == FromAll(ws, p)
  {
    if ws == [] {
    } else {
      var n := |ws| - 1;
      StepFlags(Play(r, ws[..n]).st, ws[n]);
      HeededIsAll(r, ws[..n], p);
    }
  }

  lemma {:induction false} HeededFlags(s: State, first: Player, ws: seq<Wake>, a: nat, b: nat)
    requires Good(s) && Heard(s.flags, a, b)
    ensures var r := Begin(s, first);
            var t := Play(r, ws).st;
            Active(t) || Rematch(t) ==> Heard(t.flags, a + Heeded(r, ws, 0), b + Heeded(r, ws, 1))
  {
    if ws == [] {
    } else {
      var r, n := Begin(s, first), |ws| - 1;
      var t, w := Play(r, ws[..n]).st, ws[n];
      HeededFlags(s, first, ws[..n], a, b);
      StepHeeds(t, w, a + Heeded(r, ws[..n], 0), b + Heeded(r, ws[..n], 1));
    }
  }

  lemma StepHeeds(s: State, w: Wake, a: nat, b: nat)
    requires Good(s) && (Active(s) || Rematch(s) ==> Heard(s.flags, a, b))
    ensures var t := Step(s, w).state;
            Active(t) || Rematch(t) ==>
              Heard(t.flags, a + if Active(s) then From(w.signals, 0) else 0,
                             b + if Active(s) then From(w.signals, 1) else 0)
  {
    var t := Step(s, w).state;
    if Active(s) && (Active(t) || Rematch(t)) {
      if Rematch(t) { RematchFlags(s, w); } else { StepFlags(s, w); }
      HandleCounts(s.flags, w.signals, a, b);
    }
  }

  lemma RematchFlags(s: State, w: Wake)
    requires Good(s) && Active(s) && Rematch(Step(s, w).state)
    ensures Step(s, w).state.flags == Handle(s.flags, w.signals) && !Handle(s.flags, w.signals).killed
  {
    if s.phase.Playing? {
      PlayingEnds(s, w);
    } else {
      DecidingEnds(s, w);
    }
  }

  /** Signals of client `p` handled in the matches before match `k`. */
  ghost function Before(runs: seq<Run>, s: State, first: Player, schedule: seq<seq<Wake>>, k: nat, p: Player): nat
    requires Played(runs, s, first, schedule) && k <= |runs|
  {
    if k == 0 then 0
    else
      assert IsMatch(runs, s, first, schedule, k - 1);
      Before(runs, s, first, schedule, k - 1, p) +
      Heeded(Begin(OpeningState(runs, s, k - 1), Opener(runs, first, k - 1)), schedule[k - 1], p)
  }

  /** Match `k` of a session begins with the flags that all earlier matches left. */
  lemma {:induction false} OpeningFlags(runs: seq<Run>, s: State, first: Player, schedule: seq<seq<Wake>>, k: nat)
    requires Played(runs, s, first, schedule) && Good(s) && Heard(s.flags, 0, 0) && k < |runs|
    ensures IsMatch(runs, s, first, schedule, k)
    ensures Heard(OpeningState(runs, s, k).flags, Before(runs, s, first, schedule, k, 0), Before(runs, s, first, schedule, k, 1))
  {
    assert IsMatch(runs, s, first, schedule, k);
    if k == 0 {
    } else {
      OpeningFlags(runs, s, first, schedule, k - 1);
      HeededFlags(OpeningState(runs, s, k - 1), Opener(runs, first, k - 1), schedule[k - 1],
                  Before(runs, s, first, schedule, k - 1, 0), Before(runs, s, first, schedule, k - 1, 1));
    }
  }

  /** The two exits in every match of every session, at every wake-up: whom the server
      tells and what it returns, from all the signals that the session heard so far. */
  lemma {:induction false} SessionExits(runs: seq<Run>, s: State, first: Player, schedule: seq<seq<Wake>>, k: nat, i: nat)
    requires Played(runs, s, first, schedule) && Good(s) && Heard(s.flags, 0, 0)
    requires k < |runs| && i < |schedule[k]|
    ensures IsMatch(runs, s, first, schedule, k)
    ensures var ws, w := schedule[k][..i], schedule[k][i];
            var t := Play(Begin(OpeningState(runs, s, k), Opener(runs, first, k)), ws).st;
            var a := Before(runs, s, first, schedule, k, 0) + FromAll(ws, 0);
            var b := Before(runs, s, first, schedule, k, 1) + FromAll(ws, 1);
            Departs(t, w, a, b) && Concludes(t, w, a, b)
  {
    OpeningFlags(runs, s, first, schedule, k);
    DisconnectExit(OpeningState(runs, s, k), Opener(runs, first, k), schedule[k][..i], schedule[k][i],
                   Before(runs, s, first, schedule, k, 0), Before(runs, s, first, schedule, k, 1));
    DecisionExit(OpeningState(runs, s, k), Opener(runs, first, k), schedule[k][..i], schedule[k][i],
                 Before(runs, s, first, schedule, k, 0), Before(runs, s, first, schedule, k, 1));
  }

  /** Once a client has left, no later match of the session goes on: whatever wakes the
      server first ends it without a move. */
  lemma {:induction false} NothingAfterDeparture(runs: seq<Run>, s: State, first: Player, schedule: seq<seq<Wake>>, k: nat, w: Wake)
    requires Played(runs, s, first, schedule) && Good(s) && Heard(s.flags, 0, 0) && k < |runs|
    requires Before(runs, s, first, schedule, k, 0) + Before(runs, s, first, schedule, k, 1) > 0
    ensures IsMatch(runs, s, first, schedule, k)
    ensures var r := Begin(OpeningState(runs, s, k), Opener(runs, first, k));
            !Active(Step(r.st, w).state) && Step(r.st, w).state.board == r.st.board
  {
    OpeningFlags(runs, s, first, schedule, k);
    FlagStays(Begin(OpeningState(runs, s, k), Opener(runs, first, k)).st.flags, w.signals);
  }

  lemma {:induction false} FlagStays(f: Flags, sigs: seq<Signal>)
    requires |f.disconnected| == 2 && f.happened
    ensures Handle(f, sigs).happened
  {
    if sigs == [] {
    } else {
      FlagStays(f, sigs[..|sigs| - 1]);
    }
  }
}
