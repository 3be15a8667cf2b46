/** What the clients conclude from the messages, against how the server's loop ended: in
    every session, with timeouts and every signal. */
module Verdicts {
  import opened Messages
  import opened Match
  import opened Replica
  import opened Protocol
  import opened FairClients
  import opened FairServer
  import opened Writes
  import opened Tokens
  import opened Rematches

  /** A message that may be on the queue of the current player (`mover`), or of the
      other, when the server is in this phase. */
  predicate Speaks(phase: Phase, mover: bool, m: Message) {
    match m
    case Error(code, _) =>
      || code == 400 || code == 408
      || (phase == Ended(-3) && (code == 450 || code == 600))
      || ((phase == Ended(-1) || phase == Ended(-2) || phase == Killed) && code == 601)
      || (phase == Ended(-1) && !mover && code == 602)
    case GameEnd(r) => r.draw ==> phase == Ended(-4)
    case _ => true
  }

  predicate SpeaksAll(phase: Phase, mover: bool, q: seq<Message>) {
    forall i :: 0 <= i < |q| ==> Speaks(phase, mover, q[i])
  }

  /** The client's return value against the phase of the server. */
  predicate Verdict(phase: Phase, mover: bool, mode: Mode) {
    match mode
    case Left(code) =>
      || code == 0
      || (code == -3 && phase == Ended(-3))
      || (code == -4 && phase == Ended(-4))
      || (code == -5 && (phase == Ended(-1) || phase == Ended(-2) || phase == Killed))
      || (code == -7 && mover && (phase.Deciding? || phase == Ended(-1) || phase == Killed))
      || (code == -8 && !mover && phase == Ended(-1))
    case Aborted => false
    case _ => true
  }

  ghost predicate VerdictOk(j: Joint, k: Player)
    requires WellFormed(j)
  {
    var mover := k == j.server.current;
    SpeaksAll(j.server.phase, mover, j.queues[k]) && Verdict(j.server.phase, mover, j.clients[k].mode)
  }

  lemma StepSpeaks(s: State, w: Wake)
    requires Good(s)
    ensures var t := Step(s, w);
            forall i :: 0 <= i < |t.sends| ==> Speaks(t.state.phase, t.sends[i].to == t.state.current, t.sends[i].msg)
  {
    if w.taken.Some? {
      var t := s.(flags := Handle(s.flags, w.signals));
      MoveSpeaks(t, w.taken.value.move);
    }
  }

  lemma MoveSpeaks(s: State, move: Int32)
    requires Good(s)
    ensures var t := Move(s, move);
            forall i :: 0 <= i < |t.sends| ==> Speaks(t.state.phase, t.sends[i].to == t.state.current, t.sends[i].msg)
  {
  }

  lemma {:induction false} PlayerSpeaks(phase: Phase, current: Player, sends: seq<Send>, k: Player)
    requires forall i :: 0 <= i < |sends| ==> Speaks(phase, sends[i].to == current, sends[i].msg)
    ensures SpeaksAll(phase, k == current, ToPlayer(sends, k))
  {
    if sends == [] {
    } else {
      PlayerSpeaks(phase, current, sends[..|sends| - 1], k);
    }
  }

  /** What may be said while a match goes on, or before the next one, may be said later. */
  lemma SpeaksOn(before: Phase, was: bool, after: Phase, mover: bool, q: seq<Message>)
    requires SpeaksAll(before, was, q) && (before.Playing? || before.Deciding? || (before.Ended? && before.status >= 0))
    ensures SpeaksAll(after, mover, q)
  {
  }

  lemma WakeSpeaks(j: Joint, a: Action, k: Player)
    requires SessionInv(j) && VerdictOk(j, k) && a.Wakes? && Enabled(j, a)
    ensures VerdictOk(Next(j, a), k)
  {
    var t := Step(j.server, WakeOf(j, a));
    var mover := k == t.state.current;
    StepSpeaks(j.server, WakeOf(j, a));
    PlayerSpeaks(t.state.phase, t.state.current, t.sends, k);
    assert SpeaksAll(j.server.phase, k == j.server.current, Remaining(j, a, k));
    SpeaksOn(j.server.phase, k == j.server.current, t.state.phase, mover, Remaining(j, a, k));
    assert Next(j, a).queues[k] == Remaining(j, a, k) + ToPlayer(t.sends, k);
    WakeTokens(j, a, k);
  }

  lemma ClientSpeaks(j: Joint, a: Action, k: Player)
    requires SessionInv(j) && VerdictOk(j, k) && !a.Wakes? && Enabled(j, a)
    ensures VerdictOk(Next(j, a), k)
  {
    if a.k == k && a.Receives? { assert Speaks(j.server.phase, k == j.server.current, j.queues[k][a.i]); }
    assert ClientInv(j, k);
  }

  lemma BeginSpeaks(j: Joint, k: Player)
    requires SessionInv(j) && VerdictOk(j, k)
    ensures VerdictOk(FairNext(j, Rematches), k)
  {
    var j' := FairNext(j, Rematches);
    if j.server.phase == Ended(0) || j.server.phase == Ended(1) {
      SpeaksOn(j.server.phase, k == j.server.current, j'.server.phase, k == j'.server.current, j.queues[k]);
    }
  }

  lemma NextVerdict(j: Joint, e: Event, k: Player)
    requires SessionInv(j) && VerdictOk(j, k)
    ensures VerdictOk(AnyNext(j, e), k)
  {
    match e
    case Begins => BeginSpeaks(j, k);
    case Acts(a) =>
      if Enabled(j, a) {
        if a.Wakes? { WakeSpeaks(j, a, k); } else { ClientSpeaks(j, a, k); }
      }
  }

  lemma {:induction false} VerdictsKeep(j: Joint, events: seq<Event>, k: Player)
    requires SessionInv(j) && VerdictOk(j, k)
    ensures VerdictOk(AnyReach(j, events), k)
  {
    if events == [] {
    } else {
      AnyReachInv(j, events[..|events| - 1]);
      VerdictsKeep(j, events[..|events| - 1], k);
      NextVerdict(AnyReach(j, events[..|events| - 1]), events[|events| - 1], k);
    }
  }

  /** In every session no client ever meets an error code it does not know, and a client
      that leaves without quitting tells how the server's loop ended: -3 after a forfeit,
      -4 after a draw, -5 after a disconnection, -7 for the winner of the decided match,
      whom no rematch follows, and -8 for the loser of a match without a rematch. */
  lemma {:induction false} VerdictsAgree(j: Joint, s: State, first: Player, events: seq<Event>, k: Player)
    requires SessionStart(j, s, first)
    ensures var t := AnyReach(j, events); Verdict(t.server.phase, k == t.server.current, t.clients[k].mode)
  {
    SessionBegins(j, s, first);
    VerdictsKeep(j, events, k);
  }

  // ----- Why the loser was told

  /** The three ways in which the winner's decision ends with error 602: a request that
      does not ask for a restart, silence, and a departure while somebody is left. */
  ghost predicate Declines(s: State, w: Wake)
    requires Good(s)
  {
    var f := Handle(s.flags, w.signals);
    && s.phase.Deciding? && !f.killed
    && (|| (w.taken.Some? && !w.taken.value.restartMatch)
        || (w.taken.None? && f.timeout && !f.happened)
        || (w.taken.None? && f.happened && FirstConnected(f).Some?))
  }

  predicate Stop602(m: Message) { m.Error? && m.code == 602 }

  /** Error 602 is sent exactly then, to the player who did not win. */
  lemma DeclineExact(s: State, w: Wake)
    requires Good(s)
    ensures var sends := Step(s, w).sends;
            && (Declines(s, w) <==> exists i :: 0 <= i < |sends| && Stop602(sends[i].msg))
            && (Declines(s, w) ==> sends == [Send(Other(s.current), Error(602, OpponentStops))])
  {
    var sends := Step(s, w).sends;
    if Declines(s, w) {
      assert Stop602(sends[0].msg);
    } else if w.taken.Some? {
      MoveNever602(s.(flags := Handle(s.flags, w.signals)), w.taken.value.move);
    }
  }

  lemma MoveNever602(s: State, move: Int32)
    requires Good(s)
    ensures forall i :: 0 <= i < |Move(s, move).sends| ==> !Stop602(Move(s, move).sends[i].msg)
  {
  }

  predicate None602(q: seq<Message>) { forall i :: 0 <= i < |q| ==> !Stop602(q[i]) }

  lemma NoneWithout(q: seq<Message>, i: nat)
    requires None602(q) && i < |q|
    ensures None602(RemoveAt(q, i))
  {
  }

  lemma Later602(q: seq<Message>, ms: seq<Message>, n: nat)
    requires None602(q) && n < |q + ms| && Stop602((q + ms)[n])
    ensures n >= |q| && ms[n - |q|] == (q + ms)[n]
  {
  }

  /** Client `k` was told, or will be. */
  ghost predicate Told(j: Joint, k: Player)
    requires WellFormed(j)
  {
    j.clients[k].mode == Left(-8) || !None602(j.queues[k])
  }

  /** Event `n` is the wake-up that ended the winner's decision without a rematch. */
  ghost predicate DeclinedAt(j: Joint, events: seq<Event>, n: nat, k: Player)
    requires WellFormed(j) && n < |events|
  {
    var t := AnyReach(j, events[..n]);
    && events[n].Acts? && events[n].a.Wakes? && Enabled(t, events[n].a)
    && k == Other(t.server.current) && Declines(t.server, WakeOf(t, events[n].a))
  }

  lemma {:induction false} Sent602(sends: seq<Send>, k: Player, i: nat) returns (n: nat)
    requires i < |ToPlayer(sends, k)| && Stop602(ToPlayer(sends, k)[i])
    ensures n < |sends| && sends[n].to == k && Stop602(sends[n].msg)
  {
    var m := |sends| - 1;
    if i < |ToPlayer(sends[..m], k)| {
      n := Sent602(sends[..m], k, i);
    } else {
      n := m;
    }
  }

  /** A client is told only by such a wake-up. */
  lemma ToldBy(j: Joint, e: Event, k: Player)
    requires WellFormed(j) && Told(AnyNext(j, e), k) && !Told(j, k)
    ensures e.Acts? && e.a.Wakes? && Enabled(j, e.a)
    ensures k == Other(j.server.current) && Declines(j.server, WakeOf(j, e.a))
  {
    var j' := AnyNext(j, e);
    assert e.Acts? && Enabled(j, e.a);
    match e.a
    case Wakes(_, _, _) => WakeTells(j, e.a, k);
    case Receives(p, i) =>
      if p == k { NoneWithout(j.queues[k], i); }
    case _ =>
  }

  lemma WakeTells(j: Joint, a: Action, k: Player)
    requires WellFormed(j) && a.Wakes? && Enabled(j, a) && Told(Next(j, a), k) && !Told(j, k)
    ensures k == Other(j.server.current) && Declines(j.server, WakeOf(j, a))
  {
    var sends, rest := Step(j.server, WakeOf(j, a)).sends, Remaining(j, a, k);
    assert Next(j, a).queues[k] == rest + ToPlayer(sends, k);
    RemainingOf(j, a, k);
    if a.taken.Some? && a.taken.value < |j.queues[k]| { NoneWithout(j.queues[k], a.taken.value); }
    SentNow(j.server, WakeOf(j, a), rest, k);
  }

  lemma SentNow(s: State, w: Wake, rest: seq<Message>, k: Player)
    requires Good(s) && None602(rest) && !None602(rest + ToPlayer(Step(s, w).sends, k))
    ensures k == Other(s.current) && Declines(s, w)
  {
    var ms := ToPlayer(Step(s, w).sends, k);
    var n :| 0 <= n < |rest + ms| && Stop602((rest + ms)[n]);
    Later602(rest, ms, n);
    var m := Sent602(Step(s, w).sends, k, n - |rest|);
    DeclineExact(s, w);
  }

  lemma NobodyTold(j: Joint, s: State, first: Player, k: Player)
    requires SessionStart(j, s, first)
    ensures !Told(j, k)
  {
    assert k == first || k == Other(first);
  }

  /** Whoever leaves with -8, or has error 602 pending, owes it to a winner who declined,
      kept silent or left. */
  lemma {:induction false} WhyDeclined(j: Joint, s: State, first: Player, events: seq<Event>, k: Player) returns (n: nat)
    requires SessionStart(j, s, first) && Told(AnyReach(j, events), k)
    ensures n < |events| && DeclinedAt(j, events, n, k)
  {
    NobodyTold(j, s, first, k);
    var m := |events| - 1;
    var t := AnyReach(j, events[..m]);
    if Told(t, k) {
      n := WhyDeclined(j, s, first, events[..m], k);
      assert events[..m][..n] == events[..n];
    } else {
      n := m;
      ToldBy(t, events[m], k);
    }
  }
}
