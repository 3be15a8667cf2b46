/** What ends the server's loop reaches the clients: a final message is never lost, and a
    client that takes it leaves with exactly its return value. */
module Finals {
  import opened Messages
  import opened Grid
  import opened Match
  import opened MatchSafety
  import opened Replica
  import opened Protocol
  import opened FairServer
  import opened Writes
  import opened Tokens
  import opened Rematches
  import opened Verdicts

  /** The return value with which a message ends the client's loop, by the error code, and
      by the draw flag of a GAME_END without a winner. */
  function ExitCode(m: Message): Option<int> {
    if m.Error? && (m.code == 450 || m.code == 600) then Some(-3)
    else if m.Error? && m.code == 601 then Some(-5)
    else if m.Error? && m.code == 602 then Some(-8)
    else if m.GameEnd? && m.reply.draw && !m.reply.winner then Some(-4)
    else None
  }

  predicate Known(m: Message) { m.Error? ==> m.code in {400, 408, 450, 600, 601, 602} }

  /** A client leaves on these messages and on no other, each with its value. */
  lemma ExitExact(c: ClientState, m: Message)
    requires c.mode.Ready? && Known(m)
    ensures Take(c, m).mode.Left? <==> ExitCode(m).Some?
    ensures ExitCode(m).Some? ==> Take(c, m).mode == Left(ExitCode(m).value)
  {
  }

  // ----- A client that has left

  /** It takes nothing, answers nothing and keeps its replica; only an interrupt could
      still reach it. */
  lemma LeftTakesNothing(j: Joint, e: Event, k: Player, code: int)
    requires WellFormed(j) && j.clients[k].mode == Left(code)
    ensures var t := AnyNext(j, e);
            && (t.clients[k].mode == Left(code) || t.clients[k].mode == Left(0))
            && t.clients[k].cells == j.clients[k].cells
            && (forall i :: !Enabled(j, Receives(k, i))) && (forall a :: !Enabled(j, Answers(k, a)))
  {
  }

  lemma {:induction false} LeftForGood(j: Joint, events: seq<Event>, k: Player, code: int)
    requires WellFormed(j) && j.clients[k].mode == Left(code)
    ensures var t := AnyReach(j, events);
            && (t.clients[k].mode == Left(code) || t.clients[k].mode == Left(0))
            && t.clients[k].cells == j.clients[k].cells
  {
    if events == [] {
    } else {
      var n := |events| - 1;
      LeftForGood(j, events[..n], k, code);
      var t := AnyReach(j, events[..n]);
      LeftTakesNothing(t, events[n], k, if t.clients[k].mode == Left(0) then 0 else code);
    }
  }

  // ----- A final message that was sent

  predicate HasExit(q: seq<Message>, code: int) { exists n :: 0 <= n < |q| && ExitCode(q[n]) == Some(code) }

  /** It is pending, or it was taken; a client that quit takes nothing. */
  ghost predicate Arrives(j: Joint, k: Player, code: int)
    requires WellFormed(j)
  {
    HasExit(j.queues[k], code) || j.clients[k].mode == Left(code) || j.clients[k].mode == Left(0)
  }

  /** Every final message on the queue has this value. */
  predicate OnlyExit(q: seq<Message>, code: int) {
    forall n :: 0 <= n < |q| ==> Known(q[n]) && (ExitCode(q[n]).Some? ==> ExitCode(q[n]) == Some(code))
  }

  /** The server's loop has returned for good. */
  ghost predicate Gone(s: State) { !Active(s) && !Rematch(s) }

  lemma StillArrives(j: Joint, e: Event, k: Player, code: int)
    requires WellFormed(j) && Gone(j.server) && OnlyExit(j.queues[k], code) && Arrives(j, k, code)
    ensures var t := AnyNext(j, e); t.server == j.server && OnlyExit(t.queues[k], code) && Arrives(t, k, code)
  {
    var t := AnyNext(j, e);
    if e.Acts? && Enabled(j, e.a) && !e.a.Wakes? && e.a.k == k {
      match e.a
      case Receives(_, i) => TakenArrives(j, k, i, code);
      case Answers(_, answer) => AnsweredArrives(j, k, answer, code);
      case Quits(_) =>
    }
  }

  lemma TakenArrives(j: Joint, k: Player, i: nat, code: int)
    requires WellFormed(j) && OnlyExit(j.queues[k], code) && Arrives(j, k, code) && Enabled(j, Receives(k, i))
    ensures var t := Next(j, Receives(k, i)); OnlyExit(t.queues[k], code) && Arrives(t, k, code)
  {
    var q, t := j.queues[k], Next(j, Receives(k, i));
    ExitExact(j.clients[k], q[i]);
    forall n | 0 <= n < |q| - 1 ensures RemoveAt(q, i)[n] == q[if n < i then n else n + 1] {}
    if ExitCode(q[i]).None? {
      var n :| 0 <= n < |q| && ExitCode(q[n]) == Some(code);
      assert RemoveAt(q, i)[if n < i then n else n - 1] == q[n];
    }
  }

  lemma AnsweredArrives(j: Joint, k: Player, answer: Answer, code: int)
    requires WellFormed(j) && OnlyExit(j.queues[k], code) && Arrives(j, k, code) && Enabled(j, Answers(k, answer))
    ensures var t := Next(j, Answers(k, answer)); OnlyExit(t.queues[k], code) && Arrives(t, k, code)
  {
    var q, r := j.queues[k], React(j.clients[k], answer);
    var n :| 0 <= n < |q| && ExitCode(q[n]) == Some(code);
    assert (q + r.sends)[n] == q[n];
  }

  lemma {:induction false} ArrivesAlways(j: Joint, events: seq<Event>, k: Player, code: int)
    requires WellFormed(j) && Gone(j.server) && OnlyExit(j.queues[k], code) && Arrives(j, k, code)
    ensures var t := AnyReach(j, events); t.server == j.server && OnlyExit(t.queues[k], code) && Arrives(t, k, code)
  {
    if events == [] {
    } else {
      ArrivesAlways(j, events[..|events| - 1], k, code);
      StillArrives(AnyReach(j, events[..|events| - 1]), events[|events| - 1], k, code);
    }
  }

  // ----- The wake-up that sends it

  /** Before that wake-up nothing final is pending, and only quitting or declining has
      made a client leave. */
  predicate NoExit(q: seq<Message>) { forall n :: 0 <= n < |q| ==> Known(q[n]) && ExitCode(q[n]).None? }

  lemma NothingFinal(phase: Phase, mover: bool, q: seq<Message>)
    requires SpeaksAll(phase, mover, q) && (phase.Playing? || phase.Deciding?) && EndsOk(q)
    ensures NoExit(q)
  {
    forall n | 0 <= n < |q| ensures Known(q[n]) && ExitCode(q[n]).None? { assert Speaks(phase, mover, q[n]); }
  }

  /** The messages of a step to one player: known, final ones of one value only, and none
      of these if the loop goes on. */
  ghost predicate OneExit(t: State, ms: seq<Message>) {
    && (forall n :: 0 <= n < |ms| ==> Known(ms[n]))
    && (forall a, b :: 0 <= a < |ms| && 0 <= b < |ms| && ExitCode(ms[a]).Some? && ExitCode(ms[b]).Some? ==> a == b)
    && (forall n :: 0 <= n < |ms| && ExitCode(ms[n]).Some? ==> Gone(t))
  }

  lemma StepExits(s: State, w: Wake, k: Player)
    requires Good(s) && Valid(s.board) && GoodSymbols(s.symbols) && Active(s)
    ensures OneExit(Step(s, w).state, ToPlayer(Step(s, w).sends, k))
  {
    var o := Classify(s, w);
    if o.Some? && o.value.Accepted? {
      LoudCase(s, w);
      var row := Drop(s.board, w.taken.value.move, s.symbols[s.current]).row;
      var sends := Step(s, w).sends;
      LoudExits(Step(s, w).state, s.current, row, w.taken.value.move, ToPlayer(sends, s.current), ToPlayer(sends, Other(s.current)));
      assert k == s.current || k == Other(s.current);
    } else {
      QuietExits(s, w, k);
    }
  }

  lemma LoudExits(t: State, p: Player, row: nat, move: nat, mine: seq<Message>, theirs: seq<Message>)
    requires LoudSends(t, p, row, move, mine, theirs)
    ensures OneExit(t, mine) && OneExit(t, theirs)
  {
  }

  lemma QuietExits(s: State, w: Wake, k: Player)
    requires Good(s) && Valid(s.board) && GoodSymbols(s.symbols) && Active(s)
    requires var o := Classify(s, w); o.None? || !o.value.Accepted?
    ensures OneExit(Step(s, w).state, ToPlayer(Step(s, w).sends, k))
  {
    if w.taken.Some? { DropMeaning(s.board, w.taken.value.move, s.symbols[s.current]); }
    QuietForm(s, w);
    ShortExits(Step(s, w).state, Step(s, w).sends, k);
  }

  ghost predicate ShortSends(t: State, sends: seq<Send>) {
    && |sends| <= 2 && (|sends| == 2 ==> sends[0].to != sends[1].to)
    && forall n :: 0 <= n < |sends| ==> Known(sends[n].msg) && (ExitCode(sends[n].msg).Some? ==> Gone(t))
  }

  lemma QuietForm(s: State, w: Wake)
    requires Good(s) && Active(s)
    requires w.taken.Some? ==> (Drop(s.board, w.taken.value.move, s.symbols[s.current]).row >= 0 <==> HasRoom(s.board, w.taken.value.move))
    requires var o := Classify(s, w); o.None? || !o.value.Accepted?
    ensures ShortSends(Step(s, w).state, Step(s, w).sends)
  {
  }

  lemma ShortExits(t: State, sends: seq<Send>, k: Player)
    requires ShortSends(t, sends)
    ensures OneExit(t, ToPlayer(sends, k))
  {
    ToPlayerNone();
    if |sends| == 1 {
      ToPlayerShort(sends[0], sends[0], sends[0], k);
      assert sends == [sends[0]];
    } else if |sends| == 2 {
      ToPlayerShort(sends[0], sends[1], sends[1], k);
      assert sends == [sends[0], sends[1]];
    }
  }

  /** The wake-up `a` at `j` sends client `k` a final message with this value. */
  ghost predicate SendsExit(j: Joint, a: Action, k: Player, code: int)
    requires WellFormed(j)
  {
    a.Wakes? && Enabled(j, a) && HasExit(ToPlayer(Step(j.server, WakeOf(j, a)).sends, k), code)
  }

  lemma SentArrives(j: Joint, a: Action, k: Player, code: int)
    requires SessionInv(j) && VerdictOk(j, k) && SendsExit(j, a, k, code)
    ensures var t := Next(j, a); Gone(t.server) && OnlyExit(t.queues[k], code) && Arrives(t, k, code)
  {
    var rest, ms := Remaining(j, a, k), ToPlayer(Step(j.server, WakeOf(j, a)).sends, k);
    StepExits(j.server, WakeOf(j, a), k);
    NothingFinal(j.server.phase, k == j.server.current, j.queues[k]);
    RemainingOf(j, a, k);
    if a.taken.Some? && a.taken.value < |j.queues[k]| { NoExitWithout(j.queues[k], a.taken.value); }
    ExitJoins(rest, ms, code, Step(j.server, WakeOf(j, a)).state);
    assert Next(j, a).queues[k] == rest + ms;
  }

  lemma NoExitWithout(q: seq<Message>, i: nat)
    requires NoExit(q) && i < |q|
    ensures NoExit(RemoveAt(q, i))
  {
  }

  lemma ExitJoins(q: seq<Message>, ms: seq<Message>, code: int, t: State)
    requires NoExit(q) && OneExit(t, ms) && HasExit(ms, code)
    ensures Gone(t) && OnlyExit(q + ms, code) && HasExit(q + ms, code)
  {
    var m :| 0 <= m < |ms| && ExitCode(ms[m]) == Some(code);
    assert (q + ms)[|q| + m] == ms[m];
    forall n | 0 <= n < |q + ms| ensures Known((q + ms)[n]) && (ExitCode((q + ms)[n]).Some? ==> ExitCode((q + ms)[n]) == Some(code)) {
      assert (q + ms)[n] == if n < |q| then q[n] else ms[n - |q|];
    }
  }

  /** Every final message of every session arrives: from the wake-up that sends it on, it
      is pending, or the client has left with exactly its value, or the client has quit. */
  lemma {:induction false} FinalsArrive(j: Joint, s: State, first: Player, events: seq<Event>, a: Action, more: seq<Event>, k: Player, code: int)
    requires SessionStart(j, s, first) && SendsExit(AnyReach(j, events), a, k, code)
    ensures var t := AnyReach(AnyNext(AnyReach(j, events), Acts(a)), more);
            Gone(t.server) && Arrives(t, k, code) && OnlyExit(t.queues[k], code)
  {
    SessionBegins(j, s, first);
    AnyReachInv(j, events);
    VerdictsKeep(j, events, k);
    SentArrives(AnyReach(j, events), a, k, code);
    ArrivesAlways(AnyNext(AnyReach(j, events), Acts(a)), more, k, code);
  }

  // ----- Forfeits and draws

  /** After a forfeit both clients leave with -3, after a draw with -4, unless they quit. */
  ghost predicate EndReaches(j: Joint, k: Player)
    requires WellFormed(j)
  {
    && (j.server.phase == Ended(-3) ==> OnlyExit(j.queues[k], -3) && Arrives(j, k, -3))
    && (j.server.phase == Ended(-4) ==> OnlyExit(j.queues[k], -4) && Arrives(j, k, -4))
  }

  lemma EndReachesNext(j: Joint, e: Event, k: Player)
    requires SessionInv(j) && VerdictOk(j, k) && EndReaches(j, k)
    ensures EndReaches(AnyNext(j, e), k)
  {
    if j.server.phase == Ended(-3) {
      StillArrives(j, e, k, -3);
    } else if j.server.phase == Ended(-4) {
      StillArrives(j, e, k, -4);
    } else if e.Acts? && e.a.Wakes? && Enabled(j, e.a) {
      var t := Step(j.server, WakeOf(j, e.a)).state;
      if t.phase == Ended(-3) {
        ForfeitSends(j.server, WakeOf(j, e.a), k);
        SentArrives(j, e.a, k, -3);
      }
      if t.phase == Ended(-4) {
        DrawSends(j.server, WakeOf(j, e.a), k);
        SentArrives(j, e.a, k, -4);
      }
    }
  }

  lemma ForfeitSends(s: State, w: Wake, k: Player)
    requires Good(s) && Active(s) && Step(s, w).state.phase == Ended(-3)
    ensures HasExit(ToPlayer(Step(s, w).sends, k), -3)
  {
    ForfeitForm(s, w);
    var sends := Step(s, w).sends;
    ToPlayerShort(sends[0], sends[1], sends[1], k);
    assert sends == [sends[0], sends[1]];
    assert ExitCode(ToPlayer(sends, k)[0]) == Some(-3);
  }

  lemma ForfeitForm(s: State, w: Wake)
    requires Good(s) && Active(s) && Step(s, w).state.phase == Ended(-3)
    ensures var sends := Step(s, w).sends;
            && |sends| == 2 && sends[0].to == s.current && sends[1].to == Other(s.current)
            && ExitCode(sends[0].msg) == Some(-3) && ExitCode(sends[1].msg) == Some(-3)
  {
  }

  lemma DrawSends(s: State, w: Wake, k: Player)
    requires Good(s) && Valid(s.board) && GoodSymbols(s.symbols) && Active(s) && Step(s, w).state.phase == Ended(-4)
    ensures HasExit(ToPlayer(Step(s, w).sends, k), -4)
  {
    DrawIsAccepted(s, w);
    LoudCase(s, w);
    var row := Drop(s.board, w.taken.value.move, s.symbols[s.current]).row;
    LoudDraw(Step(s, w).state, s.current, row, w.taken.value.move, Step(s, w).sends, k);
  }

  lemma LoudDraw(t: State, p: Player, row: nat, move: nat, sends: seq<Send>, k: Player)
    requires LoudSends(t, p, row, move, ToPlayer(sends, p), ToPlayer(sends, Other(p))) && t.phase == Ended(-4)
    ensures HasExit(ToPlayer(sends, k), -4)
  {
    assert k == p || k == Other(p);
    var ms := ToPlayer(sends, k);
    assert DrawEnd(ms[|ms| - 1]);
    assert ExitCode(ms[|ms| - 1]) == Some(-4);
  }

  lemma DrawIsAccepted(s: State, w: Wake)
    requires Good(s) && Valid(s.board) && GoodSymbols(s.symbols) && Active(s) && Step(s, w).state.phase == Ended(-4)
    ensures var o := Classify(s, w); o.Some? && o.value.Accepted?
  {
    if w.taken.Some? { DropMeaning(s.board, w.taken.value.move, s.symbols[s.current]); }
  }

  lemma {:induction false} EndReachesAlways(j: Joint, events: seq<Event>, k: Player)
    requires SessionInv(j) && VerdictOk(j, k) && EndReaches(j, k)
    ensures EndReaches(AnyReach(j, events), k)
  {
    if events == [] {
    } else {
      var n := |events| - 1;
      AnyReachInv(j, events[..n]);
      VerdictsKeep(j, events[..n], k);
      EndReachesAlways(j, events[..n], k);
      EndReachesNext(AnyReach(j, events[..n]), events[n], k);
    }
  }

  /** After a forfeit each client still has its error 450 or 600 pending, or has left with
      exactly -3, or has quit; after a draw each still has its GAME_END pending, or has left
      with exactly -4, or has quit. */
  lemma {:induction false} EndsAreTold(j: Joint, s: State, first: Player, events: seq<Event>, k: Player)
    requires SessionStart(j, s, first)
    ensures var t := AnyReach(j, events);
            var q, mode := t.queues[k], t.clients[k].mode;
            && (t.server.phase == Ended(-3) ==>
                  mode == Left(-3) || mode == Left(0) || exists n :: 0 <= n < |q| && q[n].Error? && q[n].code in {450, 600})
            && (t.server.phase == Ended(-4) ==>
                  mode == Left(-4) || mode == Left(0) || exists n :: 0 <= n < |q| && q[n].GameEnd? && q[n].reply.draw)
  {
    SessionBegins(j, s, first);
    EndReachesAlways(j, events, k);
  }
}
