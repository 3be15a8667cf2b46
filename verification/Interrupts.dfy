/** Ctrl-C at the server: one is remembered until the next head of the loop, the second
    before that ends the process. */
module Interrupts {
  import opened Messages
  import opened Grid
  import opened Match
  import opened MatchSafety

  /** The number of SIGINT in a list of signals. */
  function Ints(sigs: seq<Signal>): nat {
    if sigs == [] then 0 else Ints(sigs[..|sigs| - 1]) + if sigs[|sigs| - 1] == SigInt then 1 else 0
  }

  /** Presses that the flags remember. */
  function Remembered(f: Flags): nat { if f.ctrlC then 1 else 0 }

  /** Any list of signals ends the process exactly if it had ended, or two presses came
      together; short of that, one press is remembered exactly if there was one. A process
      that has ended handles nothing. */
  lemma {:induction false} PressesCount(f: Flags, sigs: seq<Signal>)
    requires |f.disconnected| == 2
    ensures Handle(f, sigs).killed <==> f.killed || Remembered(f) + Ints(sigs) >= 2
    ensures !Handle(f, sigs).killed ==> Remembered(Handle(f, sigs)) == Remembered(f) + Ints(sigs)
    ensures f.killed ==> Handle(f, sigs) == f
  {
    if sigs == [] {
    } else {
      PressesCount(f, sigs[..|sigs| - 1]);
    }
  }

  /** A timeout is raised by SIGALRM and by nothing else. */
  lemma {:induction false} AlarmsRaise(f: Flags, sigs: seq<Signal>)
    requires |f.disconnected| == 2 && !Handle(f, sigs).killed
    ensures Handle(f, sigs).timeout <==> f.timeout || SigAlarm in sigs
  {
    if sigs == [] {
    } else {
      var n := |sigs| - 1;
      AlarmsRaise(f, sigs[..n]);
      assert sigs == sigs[..n] + [sigs[n]];
    }
  }

  // ----- Runs

  /** The wake-up ended a turn, or refused a move: the loop is at a new head. */
  ghost predicate NewHead(s: State, w: Wake)
    requires Good(s)
  {
    var o := Classify(s, w);
    Step(s, w).state.phase.Playing? && o.Some? && (o.value.Accepted? || o.value.Rejected? || o.value.Expired?)
  }

  /** Presses handled since the last head of the loop; the wait for the winner's answer
      is part of the turn that won. */
  ghost function Pressed(r: Run, ws: seq<Wake>): nat
    requires Good(r.st)
  {
    if ws == [] then 0
    else
      var n := |ws| - 1;
      var t := Play(r, ws[..n]).st;
      if NewHead(t, ws[n]) then 0 else Pressed(r, ws[..n]) + Ints(ws[n].signals)
  }

  /** What the flags of a match that goes on remember. */
  ghost predicate Recalls(s: State, n: nat) {
    Active(s) ==> !s.flags.killed && Remembered(s.flags) == n
  }

  lemma StepRecalls(s: State, w: Wake, n: nat)
    requires Good(s) && Active(s) && Recalls(s, n)
    ensures Recalls(Step(s, w).state, if NewHead(s, w) then 0 else n + Ints(w.signals))
  {
    PressesCount(s.flags, w.signals);
    var f := Handle(s.flags, w.signals);
    if s.phase.Playing? && !f.killed && !f.happened && !f.timeout && w.taken.Some? {
      MoveRecalls(s.(flags := f), w.taken.value.move);
    }
  }

  /** A move clears the press exactly if it leads to a new head. */
  lemma MoveRecalls(s: State, move: Int32)
    requires Good(s) && s.phase.Playing?
    ensures var t := Move(s, move).state;
            t.flags.ctrlC == (s.flags.ctrlC && !t.phase.Playing?) && t.flags.killed == s.flags.killed && t.phase != Killed
  {
  }

  lemma {:induction false} RunRecalls(s: State, first: Player, ws: seq<Wake>)
    requires Good(s) && !s.flags.killed
    ensures Recalls(Play(Begin(s, first), ws).st, Pressed(Begin(s, first), ws))
  {
    if ws == [] {
    } else {
      var n := |ws| - 1;
      var t := Play(Begin(s, first), ws[..n]).st;
      RunRecalls(s, first, ws[..n]);
      if Active(t) { StepRecalls(t, ws[n], Pressed(Begin(s, first), ws[..n])); }
    }
  }

  /** In every run, a wake-up ends the process exactly if it brings the presses since the
      last head of the loop to two, or, when a client has left and another is told, the
      signals before the counter is tested do. */
  lemma {:induction false} KilledExact(s: State, first: Player, ws: seq<Wake>, w: Wake)
    requires Good(s) && !s.flags.killed
    ensures var r := Begin(s, first);
            var t := Play(r, ws).st;
            var n := Pressed(r, ws) + Ints(w.signals);
            Active(t) ==>
              (Step(t, w).state.phase == Killed <==>
               n >= 2 || (t.phase.Playing? && Leaves(t, w) && n + Ints(w.late) >= 2)) &&
              (Step(t, w).state.phase == Killed ==> Kills(t, w) == [Kill(0, SigUsr1), Kill(1, SigUsr1)])
  {
    RunRecalls(s, first, ws);
    var t := Play(Begin(s, first), ws).st;
    if Active(t) { StepKilled(t, w, Pressed(Begin(s, first), ws)); }
  }

  /** A client has left, and somebody is there to be told. */
  ghost predicate Leaves(s: State, w: Wake)
    requires Good(s)
  {
    var f := Handle(s.flags, w.signals);
    f.happened && FirstConnected(f).Some?
  }

  lemma StepKilled(s: State, w: Wake, n: nat)
    requires Good(s) && Active(s) && Recalls(s, n)
    ensures var m := n + Ints(w.signals);
            Step(s, w).state.phase == Killed <==>
            m >= 2 || (s.phase.Playing? && Leaves(s, w) && m + Ints(w.late) >= 2)
    ensures Step(s, w).state.phase == Killed ==> Kills(s, w) == [Kill(0, SigUsr1), Kill(1, SigUsr1)]
  {
    var f := Handle(s.flags, w.signals);
    PressesCount(s.flags, w.signals);
    PressesCount(f, w.late);
    if s.phase.Playing? && !f.killed && !f.happened && !f.timeout && w.taken.Some? {
      MoveRecalls(s.(flags := f), w.taken.value.move);
    }
  }

  /** At every new head of the loop the press is forgotten, and the process goes on. */
  lemma {:induction false} HeadForgets(s: State, first: Player, ws: seq<Wake>, w: Wake)
    requires Good(s) && !s.flags.killed
    ensures var t := Play(Begin(s, first), ws).st;
            Active(t) && NewHead(t, w) ==> !Step(t, w).state.flags.ctrlC && !Step(t, w).state.flags.killed
    ensures !Begin(s, first).st.flags.ctrlC
  {
    RunRecalls(s, first, ws);
    var t := Play(Begin(s, first), ws).st;
    if Active(t) { StepRecalls(t, w, Pressed(Begin(s, first), ws)); }
  }

  // ----- SIGALRM

  ghost predicate NoAlarm(s: State) { Active(s) ==> !s.flags.timeout }

  lemma StepClearsAlarm(s: State, w: Wake)
    requires Good(s) && Active(s) && NoAlarm(s) && Valid(s.board) && GoodSymbols(s.symbols)
    ensures NoAlarm(Step(s, w).state)
    ensures var f, o := Handle(s.flags, w.signals), Classify(s, w);
            (o.Some? && o.value.Expired?) <==> s.phase.Playing? && SigAlarm in w.signals && !f.happened && !f.killed
  {
    var f := Handle(s.flags, w.signals);
    if !f.killed { AlarmsRaise(s.flags, w.signals); }
    if s.phase.Playing? && !f.killed && !f.happened && !f.timeout && w.taken.Some? {
      MoveClearsAlarm(s.(flags := f), w.taken.value.move);
    }
  }

  lemma MoveClearsAlarm(s: State, move: Int32)
    requires Good(s) && s.phase.Playing? && !s.flags.timeout
    ensures !Move(s, move).state.flags.timeout
  {
  }

  lemma {:induction false} RunClearsAlarm(s: State, first: Player, ws: seq<Wake>)
    requires Startable(s) && !s.flags.timeout
    ensures NoAlarm(Play(Begin(s, first), ws).st)
  {
    if ws == [] {
    } else {
      var n := |ws| - 1;
      var t := Play(Begin(s, first), ws[..n]).st;
      RunClearsAlarm(s, first, ws[..n]);
      EveryRun(s, first, ws[..n]);
      if Active(t) { StepClearsAlarm(t, ws[n]); }
    }
  }

  /** An alarm expires the turn in which it is heard and no other: at every head of the loop,
      and while the winner's answer is awaited, none is left over, and a turn expires exactly
      at a wake-up that heard one, from no client that has left and with the process alive. */
  lemma {:induction false} ExpiryExact(s: State, first: Player, ws: seq<Wake>, w: Wake)
    requires Startable(s) && !s.flags.timeout
    ensures var t := Play(Begin(s, first), ws).st;
            Active(t) ==>
              var f, o := Handle(t.flags, w.signals), Classify(t, w);
              && !t.flags.timeout
              && ((o.Some? && o.value.Expired?) <==> t.phase.Playing? && SigAlarm in w.signals && !f.happened && !f.killed)
  {
    RunClearsAlarm(s, first, ws);
    EveryRun(s, first, ws);
    var t := Play(Begin(s, first), ws).st;
    if Active(t) { StepClearsAlarm(t, w); }
  }

  /** But one heard with the winner's request for a rematch is left over: it expires the first
      turn of the next match at whatever wakes the server first. */
  lemma AlarmCarriesOver(s: State, w: Wake, first: Player, w2: Wake)
    requires Good(s) && s.phase.Deciding? && Rematch(Step(s, w).state) && SigAlarm in w.signals
    ensures var t := Begin(Step(s, w).state, first).st;
            var f := Handle(t.flags, w2.signals);
            && t.flags.timeout
            && (!f.killed && !f.happened ==> Classify(t, w2) == Some(Expired(first)))
  {
    var t := Begin(Step(s, w).state, first).st;
    AlarmsRaise(s.flags, w.signals);
    if !Handle(t.flags, w2.signals).killed { AlarmsRaise(t.flags, w2.signals); }
  }
}
