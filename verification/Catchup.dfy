/** When the replicas agree with the board across rematches: exactly, for every session
    with timeouts and signals, and for how long. */
module Catchup {
  import opened Messages
  import opened Grid
  import opened Match
  import opened Replica
  import opened Agreement
  import opened Protocol
  import opened FairServer
  import opened Writes
  import opened Coherence
  import opened Tokens
  import opened Rematches

  // ----- The moments at which a client wipes its replica

  /** Client k takes a GAME_END that it lost, or asks for a rematch that it won. */
  ghost predicate Wipes(j: Joint, e: Event, k: Player)
    requires WellFormed(j)
  {
    e.Acts? &&
    match e.a
    case Receives(p, i) => p == k && Enabled(j, e.a) && Lose(j.queues[k][i])
    case Answers(p, Restart) => p == k && j.clients[k].mode.Confirming?
    case _ => false
  }

  /** The length of the part of the queue that is older than the wipe: what lies before
      the GAME_END, or everything. */
  ghost function Older(j: Joint, e: Event, k: Player): (n: nat)
    requires WellFormed(j) && Wipes(j, e, k)
    ensures n <= |j.queues[k]|
  {
    if e.a.Receives? then e.a.i else |j.queues[k]|
  }

  /** No own disc on the board of the present match, and every older TURN_START names a
      cell that the opponent holds there again. */
  ghost predicate CleanWipe(j: Joint, e: Event, k: Player)
    requires WellFormed(j) && Wipes(j, e, k)
  {
    Unspoiled(Reference(j), j.queues[k], ViewOf(j, k), Older(j, e, k))
  }

  /** Whether the last wipe of client k, if any, was clean. */
  ghost predicate Clean(j: Joint, events: seq<Event>, k: Player)
    requires WellFormed(j)
  {
    if events == [] then true
    else
      var t, e := AnyReach(j, events[..|events| - 1]), events[|events| - 1];
      if Wipes(t, e, k) then CleanWipe(t, e, k) else Clean(j, events[..|events| - 1], k)
  }

  // ----- A client that has caught up

  predicate Asks(q: seq<Message>) { exists n: nat :: n < |q| && q[n].ClientMove? && q[n].request.restartMatch }

  /** No GAME_END is pending, and the winner of a decided match has asked for the next one. */
  ghost predicate Settled(j: Joint, k: Player)
    requires WellFormed(j)
  {
    NoEnd(j.queues[k]) && (j.server.phase.Deciding? && k == j.server.current ==> Asks(j.queues[k]))
  }

  ghost predicate Coherent(j: Joint, k: Player)
    requires WellFormed(j)
  {
    Coheres(Reference(j), j.clients[k].cells, j.queues[k], ViewOf(j, k))
  }

  /** How an event changes what concerns client `k`. */
  ghost predicate Changed(j: Joint, j': Joint, k: Player, ch: Change)
    requires WellFormed(j) && WellFormed(j')
  {
    && ViewOf(j', k) == ViewOf(j, k)
    && Changes(Reference(j), j.clients[k].cells, j.queues[k], Reference(j'), j'.clients[k].cells, j'.queues[k], ViewOf(j, k), ch)
  }

  const NOTHING := Change(None, false, [], None)

  lemma Unchanged(j: Joint, j': Joint, k: Player)
    requires WritesOk(j) && WellFormed(j') && SameGame(j.server, j'.server) && Reference(j') == Reference(j)
    requires j'.clients[k].cells == j.clients[k].cells && j'.queues[k] == j.queues[k]
    ensures Changed(j, j', k, NOTHING)
  {
    assert j.queues[k] + [] == j.queues[k];
  }

  /** An event that wipes nothing, after which client k has caught up: it had before. */
  lemma StepChange(j: Joint, e: Event, k: Player) returns (ch: Change)
    requires SessionInv(j) && !Wipes(j, e, k)
    requires var j' := AnyNext(j, e); Goes(j'.server) && Settled(j', k)
    ensures Goes(j.server) && Settled(j, k) && Changed(j, AnyNext(j, e), k, ch)
  {
    var j' := AnyNext(j, e);
    match e
    case Begins => ch := BeginChange(j, k);
    case Acts(a) =>
      if !Enabled(j, a) {
        ch := NOTHING;
        Unchanged(j, j', k);
      } else if a.Wakes? {
        ch := WakeChange(j, a, k);
      } else if a.k != k {
        ch := NOTHING;
        Unchanged(j, j', k);
      } else {
        ch := ClientChange(j, a, k);
      }
  }

  lemma BeginChange(j: Joint, k: Player) returns (ch: Change)
    requires SessionInv(j)
    requires var j' := AnyNext(j, Begins); Goes(j'.server) && Settled(j', k)
    ensures Goes(j.server) && Settled(j, k) && Changed(j, AnyNext(j, Begins), k, ch)
  {
    var j', m := AnyNext(j, Begins), GameStart(NO_UPDATE);
    if (j.server.phase == Ended(0) || j.server.phase == Ended(1)) && k == Other(j.server.phase.status) {
      ch := Change(None, false, [m], None);
      FreshMore(j.queues[k], m, 0);
    } else {
      ch := NOTHING;
      Unchanged(j, j', k);
    }
  }

  lemma WakeChange(j: Joint, a: Action, k: Player) returns (ch: Change)
    requires SessionInv(j) && a.Wakes? && Enabled(j, a)
    requires var j' := Next(j, a); Goes(j'.server) && Settled(j', k)
    ensures Goes(j.server) && Settled(j, k) && Changed(j, Next(j, a), k, ch)
  {
    var o := Classify(j.server, WakeOf(j, a));
    assert ClientInv(j, k);
    RestTail(j, a, k);
    if o.Some? && o.value.Accepted? { ch := LoudChange(j, a, k); } else { ch := QuietChange(j, a, k); }
  }

  /** What the server takes from client `k`. */
  ghost function TakenFrom(j: Joint, a: Action, k: Player): Option<nat>
    requires WellFormed(j) && a.Wakes? && Enabled(j, a)
  {
    if k == j.server.current then a.taken else None
  }

  lemma QuietChange(j: Joint, a: Action, k: Player) returns (ch: Change)
    requires BaseInv(j) && ClientInv(j, k) && a.Wakes? && Enabled(j, a)
    requires var o := Classify(j.server, WakeOf(j, a)); o.None? || !o.value.Accepted?
    requires var j' := Next(j, a); Goes(j'.server) && Settled(j', k)
    requires NoEnd(j.queues[k]) <==> NoEnd(Remaining(j, a, k))
    requires EndsOk(Remaining(j, a, k))
    ensures Goes(j.server) && Settled(j, k) && Changed(j, Next(j, a), k, ch)
  {
    var s, w := j.server, WakeOf(j, a);
    var ms := ToPlayer(Step(s, w).sends, k);
    QuietCase(s, w);
    QuietHasNone(Step(s, w).sends, k);
    RemainingOf(j, a, k);
    if s.phase.Deciding? && k == s.current { AsksBefore(j, a, ms); }
    QuietShift(j, Next(j, a), k, TakenFrom(j, a, k), Remaining(j, a, k), ms);
    ch := Change(TakenFrom(j, a, k), false, ms, None);
  }

  lemma QuietShift(j: Joint, j': Joint, k: Player, taken: Option<nat>, rest: seq<Message>, ms: seq<Message>)
    requires BaseInv(j) && WellFormed(j') && SameGame(j.server, j'.server) && NoEnd(j'.queues[k]) && Quiet(ms)
    requires EndsOk(rest) && (NoEnd(j.queues[k]) <==> NoEnd(rest)) && Reference(j') == Reference(j)
    requires taken.Some? ==> taken.value < |j.queues[k]| && j.queues[k][taken.value].ClientMove?
    requires rest == if taken.Some? then RemoveAt(j.queues[k], taken.value) else j.queues[k]
    requires j'.queues[k] == rest + ms && j'.clients[k] == j.clients[k]
    ensures NoEnd(j.queues[k]) && Changed(j, j', k, Change(taken, false, ms, None))
  {
    EndsMany(rest, ms);
  }

  /** The request of the winner was there. */
  lemma AsksBefore(j: Joint, a: Action, ms: seq<Message>)
    requires WellFormed(j) && a.Wakes? && Enabled(j, a) && Quiet(ms)
    requires var k := j.server.current;
             Asks(Remaining(j, a, k) + ms) || (a.taken.Some? && WakeOf(j, a).taken.value.restartMatch)
    ensures Asks(j.queues[j.server.current])
  {
    var k := j.server.current;
    var q, rest := j.queues[k], Remaining(j, a, k);
    if Asks(rest + ms) {
      var n: nat :| n < |rest + ms| && (rest + ms)[n].ClientMove? && (rest + ms)[n].request.restartMatch;
      assert n < |rest| && rest[n] == (rest + ms)[n];
      if a.taken.Some? { RemovedAt(q, a.taken.value, n); }
    }
  }

  lemma LoudChange(j: Joint, a: Action, k: Player) returns (ch: Change)
    requires BaseInv(j) && ClientInv(j, k) && a.Wakes? && Enabled(j, a)
    requires var o := Classify(j.server, WakeOf(j, a)); o.Some? && o.value.Accepted?
    requires var j' := Next(j, a); Goes(j'.server) && Settled(j', k)
    requires var rest := Remaining(j, a, k);
             && EndsOk(rest) && (NoEnd(j.queues[k]) <==> NoEnd(rest))
             && (!NoEnd(rest) ==> TailOk(Reference(j), rest, ViewOf(j, k)))
    ensures Goes(j.server) && Settled(j, k) && Changed(j, Next(j, a), k, ch)
  {
    var s, w := j.server, WakeOf(j, a);
    var ms := ToPlayer(Step(s, w).sends, k);
    LoudCase(s, w);
    RestHasNone(j, a, k);
    var row := Drop(s.board, w.taken.value.move, s.symbols[s.current]).row;
    LoudOne(Step(s, w).state, s.current, row, w.taken.value.move, Step(s, w).sends, k, ViewOf(j, k));
    RemainingOf(j, a, k);
    LoudShift(j, Next(j, a), k, TakenFrom(j, a, k), Remaining(j, a, k), ms, row, w.taken.value.move);
    ch := Change(TakenFrom(j, a, k), false, ms, Some(Update(row, w.taken.value.move, s.symbols[s.current])));
  }

  lemma LoudShift(j: Joint, j': Joint, k: Player, taken: Option<nat>, rest: seq<Message>, ms: seq<Message>, row: nat, move: nat)
    requires BaseInv(j) && WellFormed(j') && j.server.phase.Playing? && SameGame(j.server, j'.server) && Goes(j'.server) && Settled(j', k)
    requires EndsOk(rest) && NoToken(rest) && (NoEnd(j.queues[k]) <==> NoEnd(rest))
    requires !NoEnd(rest) ==> TailOk(j.server.board.cells, rest, ViewOf(j, k))
    requires taken.Some? ==> taken.value < |j.queues[k]| && j.queues[k][taken.value].ClientMove?
    requires rest == if taken.Some? then RemoveAt(j.queues[k], taken.value) else j.queues[k]
    requires j'.queues[k] == rest + ms && j'.clients[k] == j.clients[k]
    requires Inside(ViewOf(j, k), row, move) && j.server.board.cells[row][move] == BLANK
    requires LoudPart(j'.server.phase, ms, ViewOf(j, k), row, move, j.server.symbols[j.server.current])
    requires j'.server.board.cells == Put(j.server.board.cells, row, move, j.server.symbols[j.server.current])
    ensures Settled(j, k)
    ensures Changed(j, j', k, Change(taken, false, ms, Some(Update(row, move, j.server.symbols[j.server.current]))))
  {
    LoudQueue(j.server.board.cells, j'.server.phase, rest, ms, ViewOf(j, k), row, move, j.server.symbols[j.server.current]);
    EndsMore(rest, ms[0]);
    assert ms == [ms[0]];
  }

  lemma ClientChange(j: Joint, a: Action, k: Player) returns (ch: Change)
    requires SessionInv(j) && !a.Wakes? && a.k == k && Enabled(j, a) && !Wipes(j, Acts(a), k)
    requires var j' := Next(j, a); Goes(j'.server) && Settled(j', k)
    ensures Goes(j.server) && Settled(j, k) && Changed(j, Next(j, a), k, ch)
  {
    assert ClientInv(j, k);
    match a
    case Receives(_, i) => ch := TakeChange(j, k, i);
    case Answers(_, answer) => ch := AnswerChange(j, k, answer);
    case Quits(_) =>
      ch := NOTHING;
      Unchanged(j, Next(j, a), k);
  }

  lemma TakeChange(j: Joint, k: Player, i: nat) returns (ch: Change)
    requires BaseInv(j) && ClientInv(j, k) && Enabled(j, Receives(k, i)) && !Lose(j.queues[k][i])
    requires var j' := Next(j, Receives(k, i)); Goes(j'.server) && Settled(j', k)
    ensures Goes(j.server) && Settled(j, k) && Changed(j, Next(j, Receives(k, i)), k, ch)
  {
    var q, rest := j.queues[k], RemoveAt(j.queues[k], i);
    EndsWithout(q, i);
    TokensWithout(q, i);
    if q[i].GameEnd? {
      assert Token(q[i]) && NoToken(rest);
    }
    if Asks(rest) { AsksWith(q, i); }
    ch := Change(Some(i), true, [], None);
    assert rest + [] == rest && IsClient(j, k);
  }

  lemma AsksWith(q: seq<Message>, i: nat)
    requires i < |q| && Asks(RemoveAt(q, i))
    ensures Asks(q)
  {
    var rest := RemoveAt(q, i);
    var n: nat :| n < |rest| && rest[n].ClientMove? && rest[n].request.restartMatch;
    RemovedAt(q, i, n);
    assert q[if n < i then n else n + 1] == rest[n];
  }

  lemma AnswerChange(j: Joint, k: Player, answer: Answer) returns (ch: Change)
    requires BaseInv(j) && ClientInv(j, k) && Enabled(j, Answers(k, answer)) && !Wipes(j, Acts(Answers(k, answer)), k)
    requires var j' := Next(j, Answers(k, answer)); Goes(j'.server) && Settled(j', k)
    ensures Goes(j.server) && Settled(j, k) && Changed(j, Next(j, Answers(k, answer)), k, ch)
  {
    var q, r := j.queues[k], React(j.clients[k], answer);
    ch := Change(None, false, r.sends, None);
    if r.sends == [] {
      assert q + r.sends == q;
    } else {
      var m := r.sends[0];
      assert r.sends == [m];
      FreshMore(q, m, 0);
      if Asks(q + [m]) {
        var n: nat :| n < |q + [m]| && (q + [m])[n].ClientMove? && (q + [m])[n].request.restartMatch;
        assert n < |q| && q[n] == (q + [m])[n];
      }
    }
  }

  // ----- A wipe

  /** Right after a wipe with no other GAME_END pending, the replica after its pending
      messages is the board exactly if the wipe is clean. */
  lemma WipeIsExact(j: Joint, e: Event, k: Player)
    requires SessionInv(j) && Goes(j.server) && Wipes(j, e, k) && NoEnd(AnyNext(j, e).queues[k])
    ensures var j' := AnyNext(j, e);
            && Reference(j') == Reference(j) && ViewOf(j', k) == ViewOf(j, k)
            && (CleanWipe(j, e, k) ==> Coherent(j', k))
            && (Overlay(j'.clients[k].cells, j'.queues[k], j.server.symbols[k], j.server.symbols[Other(k)]) == Reference(j)
                <==> CleanWipe(j, e, k))
  {
    assert ClientInv(j, k);
    SessionSees(j, k);
    match e.a
    case Receives(_, i) => LoserWipe(j, k, i);
    case Answers(_, _) => WinnerWipe(j, k);
  }

  lemma SessionSees(j: Joint, k: Player)
    requires BaseInv(j)
    ensures Sees(ViewOf(j, k)) && Coloured(Reference(j), ViewOf(j, k))
    ensures forall n :: 0 <= n < |j.queues[k]| ==> Fitting(j.queues[k][n], ViewOf(j, k))
  {
    var q := j.queues[k];
    forall n | 0 <= n < |q| ensures Fitting(q[n], ViewOf(j, k)) {
      assert OnBoard(q[n], j.server.board.rows, j.server.board.columns);
    }
  }

  lemma LoserWipe(j: Joint, k: Player, i: nat)
    requires BaseInv(j) && ClientInv(j, k) && Goes(j.server) && Enabled(j, Receives(k, i)) && Lose(j.queues[k][i])
    requires NoEnd(RemoveAt(j.queues[k], i))
    requires Sees(ViewOf(j, k)) && Coloured(Reference(j), ViewOf(j, k))
    requires forall n :: 0 <= n < |j.queues[k]| ==> Fitting(j.queues[k][n], ViewOf(j, k))
    ensures var j' := Next(j, Receives(k, i));
            var clean := Unspoiled(Reference(j), j.queues[k], ViewOf(j, k), i);
            && Reference(j') == Reference(j) && ViewOf(j', k) == ViewOf(j, k) && j'.queues[k] == RemoveAt(j.queues[k], i)
            && (clean ==> Coherent(j', k))
            && (Overlay(j'.clients[k].cells, j'.queues[k], j.server.symbols[k], j.server.symbols[Other(k)]) == Reference(j) <==> clean)
  {
    var q, v := j.queues[k], ViewOf(j, k);
    assert !NoEnd(q);
    CatchUp(Reference(j), q, v, i);
    LoserForm(j, k, i);
  }

  lemma LoserForm(j: Joint, k: Player, i: nat)
    requires WritesOk(j) && Enabled(j, Receives(k, i)) && Lose(j.queues[k][i])
    ensures var j' := Next(j, Receives(k, i));
            && Reference(j') == Reference(j) && ViewOf(j', k) == ViewOf(j, k) && j'.queues[k] == RemoveAt(j.queues[k], i)
            && j'.clients[k].cells == BlankCells(j.server.board.rows, j.server.board.columns)
  {
    WipeIsBlank(Write(j.clients[k].cells, Pends(j.queues[k][i], ViewOf(j, k))), j.server.board.rows, j.server.board.columns);
    assert IsClient(j, k);
  }

  lemma WinnerWipe(j: Joint, k: Player)
    requires BaseInv(j) && ClientInv(j, k) && Goes(j.server) && j.clients[k].mode.Confirming?
    requires Sees(ViewOf(j, k)) && forall n :: 0 <= n < |j.queues[k]| ==> Fitting(j.queues[k][n], ViewOf(j, k))
    ensures var j', q := Next(j, Answers(k, Restart)), j.queues[k];
            var clean := Unspoiled(Reference(j), q, ViewOf(j, k), |q|);
            && Reference(j') == Reference(j) && ViewOf(j', k) == ViewOf(j, k)
            && (clean ==> Coherent(j', k))
            && (Overlay(j'.clients[k].cells, j'.queues[k], j.server.symbols[k], j.server.symbols[Other(k)]) == Reference(j) <==> clean)
  {
    var q, v, m := j.queues[k], ViewOf(j, k), ClientMove(Request(0, true));
    var blank := BlankCells(v.rows, v.columns);
    assert Reference(j) == blank;
    WinnerCatchesUp(q, v);
    WipeIsBlank(j.clients[k].cells, v.rows, v.columns);
    OverlaySnoc(blank, q, m, v.own, v.opponent);
    if Unspoiled(blank, q, v, |q|) { CohereMore(blank, blank, q, v, m); }
    assert Next(j, Answers(k, Restart)).queues[k] == q + [m];
  }

  // ----- Every run

  /** A client that has caught up after a clean wipe agrees. */
  ghost predicate Kept(j: Joint, k: Player, clean: bool)
    requires WellFormed(j)
  {
    Goes(j.server) && Settled(j, k) && clean ==> Coherent(j, k)
  }

  lemma KeptNext(j: Joint, e: Event, k: Player, clean: bool)
    requires SessionInv(j) && Kept(j, k, clean)
    ensures Kept(AnyNext(j, e), k, if Wipes(j, e, k) then CleanWipe(j, e, k) else clean)
  {
    var j' := AnyNext(j, e);
    if Goes(j'.server) && Settled(j', k) {
      if Wipes(j, e, k) {
        assert Goes(j.server);
        WipeIsExact(j, e, k);
      } else {
        var ch := StepChange(j, e, k);
        SessionSees(j, k);
        if clean {
          CohereChange(Reference(j), j.clients[k].cells, j.queues[k], Reference(j'), j'.clients[k].cells, j'.queues[k], ViewOf(j, k), ch);
        }
      }
    }
  }

  lemma {:induction false} KeptAlways(j: Joint, s: State, first: Player, events: seq<Event>, k: Player)
    requires SessionStart(j, s, first)
    ensures Kept(AnyReach(j, events), k, Clean(j, events, k)) && SessionInv(AnyReach(j, events))
  {
    SessionBegins(j, s, first);
    AnyReachInv(j, events);
    if events == [] {
      assert k == first || k == Other(first);
    } else {
      KeptAlways(j, s, first, events[..|events| - 1], k);
      KeptNext(AnyReach(j, events[..|events| - 1]), events[|events| - 1], k, Clean(j, events[..|events| - 1], k));
    }
  }

  // ----- Theorems

  /** Agreement in every match of every session, timeouts and signals included: at a head
      of the loop with no GAME_END pending for client k, if its last wipe was clean, the
      replica after the pending messages is the board, in whatever order they are taken. */
  lemma {:induction false} AgreementWhenClean(j: Joint, s: State, first: Player, events: seq<Event>, k: Player, picks: seq<nat>)
    requires SessionStart(j, s, first) && Clean(j, events, k)
    requires var t := AnyReach(j, events);
             && t.server.phase.Playing? && NoEnd(t.queues[k])
             && |picks| == |t.queues[k]| && forall n :: 0 <= n < |picks| ==> picks[n] < |t.queues[k]| - n
    ensures var t := AnyReach(j, events);
            && Overlay(t.clients[k].cells, t.queues[k], s.symbols[k], s.symbols[Other(k)]) == t.server.board.cells
            && Drain(t.clients[k].cells, t.queues[k], s.symbols[k], s.symbols[Other(k)], picks) == t.server.board.cells
            && (t.queues[k] == [] ==> t.clients[k].cells == t.server.board.cells)
  {
    KeptAlways(j, s, first, events, k);
    var t := AnyReach(j, events);
    CohereOverlay(Reference(t), t.clients[k].cells, t.queues[k], ViewOf(t, k));
    CohereDrain(Reference(t), t.clients[k].cells, t.queues[k], ViewOf(t, k), picks);
  }

  /** Exactly when a client that takes its last pending GAME_END, or asks for a rematch,
      agrees from there: no own disc on the board of the present match, and no older
      TURN_START but for cells that the opponent holds there again. */
  lemma {:induction false} WipeExact(j: Joint, s: State, first: Player, events: seq<Event>, e: Event, k: Player)
    requires SessionStart(j, s, first)
    requires var t := AnyReach(j, events); Goes(t.server) && Wipes(t, e, k) && NoEnd(AnyNext(t, e).queues[k])
    ensures var t := AnyReach(j, events);
            var t' := AnyNext(t, e);
            && Reference(t') == Reference(t)
            && (Overlay(t'.clients[k].cells, t'.queues[k], s.symbols[k], s.symbols[Other(k)]) == Reference(t') <==> CleanWipe(t, e, k))
  {
    SessionBegins(j, s, first);
    AnyReachInv(j, events);
    WipeIsExact(AnyReach(j, events), e, k);
  }

  /** Client k wipes nothing during these events. */
  ghost predicate Undisturbed(j: Joint, events: seq<Event>, k: Player)
    requires WellFormed(j)
  {
    if events == [] then true
    else Undisturbed(j, events[..|events| - 1], k) && !Wipes(AnyReach(j, events[..|events| - 1]), events[|events| - 1], k)
  }

  ghost predicate LostAt(j: Joint, k: Player, r: int, c: int)
    requires WellFormed(j)
  {
    Goes(j.server) && Settled(j, k) ==> Lost(Reference(j), j.clients[k].cells, j.queues[k], ViewOf(j, k), r, c)
  }

  ghost predicate MarkedAt(j: Joint, k: Player, r: int, c: int)
    requires WellFormed(j)
  {
    Goes(j.server) && Settled(j, k) ==> Marked(j.clients[k].cells, j.queues[k], ViewOf(j, k), r, c)
  }

  lemma {:induction false} LostLasts(j: Joint, events: seq<Event>, k: Player, r: int, c: int)
    requires SessionInv(j) && LostAt(j, k, r, c) && Undisturbed(j, events, k)
    ensures LostAt(AnyReach(j, events), k, r, c)
  {
    if events == [] {
    } else {
      var t, e := AnyReach(j, events[..|events| - 1]), events[|events| - 1];
      AnyReachInv(j, events[..|events| - 1]);
      LostLasts(j, events[..|events| - 1], k, r, c);
      LostNext(t, e, k, r, c);
    }
  }

  lemma LostNext(t: Joint, e: Event, k: Player, r: int, c: int)
    requires SessionInv(t) && LostAt(t, k, r, c) && !Wipes(t, e, k)
    ensures LostAt(AnyNext(t, e), k, r, c)
  {
    var t' := AnyNext(t, e);
    if Goes(t'.server) && Settled(t', k) {
      var ch := StepChange(t, e, k);
      SessionSees(t, k);
      LostChange(Reference(t), t.clients[k].cells, t.queues[k], Reference(t'), t'.clients[k].cells, t'.queues[k], ViewOf(t, k), ch, r, c);
    }
  }

  lemma {:induction false} MarkedLasts(j: Joint, events: seq<Event>, k: Player, r: int, c: int)
    requires SessionInv(j) && MarkedAt(j, k, r, c) && Undisturbed(j, events, k)
    ensures MarkedAt(AnyReach(j, events), k, r, c)
  {
    if events == [] {
    } else {
      var t, e := AnyReach(j, events[..|events| - 1]), events[|events| - 1];
      AnyReachInv(j, events[..|events| - 1]);
      MarkedLasts(j, events[..|events| - 1], k, r, c);
      MarkedNext(t, e, k, r, c);
    }
  }

  lemma MarkedNext(t: Joint, e: Event, k: Player, r: int, c: int)
    requires SessionInv(t) && MarkedAt(t, k, r, c) && !Wipes(t, e, k)
    ensures MarkedAt(AnyNext(t, e), k, r, c)
  {
    var t' := AnyNext(t, e);
    if Goes(t'.server) && Settled(t', k) {
      var ch := StepChange(t, e, k);
      SessionSees(t, k);
      MarkedChange(Reference(t), t.clients[k].cells, t.queues[k], Reference(t'), t'.clients[k].cells, t'.queues[k], ViewOf(t, k), ch, r, c);
    }
  }

  lemma {:induction false} KeptLasts(j: Joint, events: seq<Event>, k: Player)
    requires SessionInv(j) && Kept(j, k, true) && Undisturbed(j, events, k)
    ensures Kept(AnyReach(j, events), k, true)
  {
    if events == [] {
    } else {
      AnyReachInv(j, events[..|events| - 1]);
      KeptLasts(j, events[..|events| - 1], k);
      KeptNext(AnyReach(j, events[..|events| - 1]), events[|events| - 1], k, true);
    }
  }

  /** Message `n` is older than the wipe and would write the opponent's symbol on a cell
      that is blank on the board of the present match. */
  ghost predicate Stale(t: Joint, e: Event, k: Player, n: nat)
    requires WellFormed(t) && Wipes(t, e, k)
  {
    var q := t.queues[k];
    n < Older(t, e, k) && q[n].TurnStart? && Fitting(q[n], ViewOf(t, k)) && Reference(t)[q[n].reply.row][q[n].reply.column] == BLANK
  }

  /** None of these cells has been played since. */
  ghost predicate Unplayed(t: Joint, e: Event, k: Player, u: Joint)
    requires WellFormed(t) && WellFormed(u) && Wipes(t, e, k) && SameGame(t.server, u.server)
  {
    forall n: nat :: Stale(t, e, k, n) ==> Reference(u)[t.queues[k][n].reply.row][t.queues[k][n].reply.column] == BLANK
  }

  /** What a wipe that is not clean has lost or will write: an own disc that is lost, or
      else a stale TURN_START. */
  lemma SpoiledWipe(t: Joint, e: Event, k: Player) returns (lost: bool, r: int, c: int, n: nat)
    requires SessionInv(t) && Goes(t.server) && Wipes(t, e, k) && NoEnd(AnyNext(t, e).queues[k]) && !CleanWipe(t, e, k)
    ensures var t' := AnyNext(t, e);
            if lost then Lost(Reference(t'), t'.clients[k].cells, t'.queues[k], ViewOf(t', k), r, c)
            else Stale(t, e, k, n) && r == t.queues[k][n].reply.row && c == t.queues[k][n].reply.column &&
                 Marked(t'.clients[k].cells, t'.queues[k], ViewOf(t', k), r, c)
  {
    var q, v, board := t.queues[k], ViewOf(t, k), Reference(t);
    SessionSees(t, k);
    assert ClientInv(t, k);
    r, c, n := 0, 0, 0;
    if r0, c0 :| Inside(v, r0, c0) && board[r0][c0] == v.own {
      lost, r, c := true, r0, c0;
      LostNow(t, e, k, r, c);
    } else {
      lost := false;
      var m :| 0 <= m < Older(t, e, k) && !Held(board, q[m], v);
      assert Fitting(q[m], v);
      n, r, c := m, q[m].reply.row, q[m].reply.column;
      MarkedNow(t, e, k, n);
    }
  }

  lemma LostNow(t: Joint, e: Event, k: Player, r: int, c: int)
    requires SessionInv(t) && Goes(t.server) && Wipes(t, e, k) && NoEnd(AnyNext(t, e).queues[k])
    requires Inside(ViewOf(t, k), r, c) && Reference(t)[r][c] == ViewOf(t, k).own
    ensures var t' := AnyNext(t, e); Lost(Reference(t'), t'.clients[k].cells, t'.queues[k], ViewOf(t', k), r, c)
  {
    SessionSees(t, k);
    assert ClientInv(t, k) && IsClient(t, k);
    assert e.a.Receives?;
    var q, v, i := t.queues[k], ViewOf(t, k), e.a.i;
    OnlyTurns(q, v, i);
    WipeIsBlank(Write(t.clients[k].cells, Pends(q[i], v)), v.rows, v.columns);
  }

  lemma MarkedNow(t: Joint, e: Event, k: Player, n: nat)
    requires SessionInv(t) && Wipes(t, e, k) && n < Older(t, e, k) && t.queues[k][n].TurnStart?
    ensures var t', m := AnyNext(t, e), t.queues[k][n];
            Marked(t'.clients[k].cells, t'.queues[k], ViewOf(t', k), m.reply.row, m.reply.column)
  {
    SessionSees(t, k);
    var q, v, t' := t.queues[k], ViewOf(t, k), AnyNext(t, e);
    assert Fitting(q[n], v) && ViewOf(t', k) == v;
    assert HitsAt(q, v, n, q[n].reply.row, q[n].reply.column);
    NextWrites(t, e.a);
    if e.a.Receives? {
      Shifted(q, v, e.a.i, n, q[n].reply.row, q[n].reply.column);
    } else {
      AwaitedMore(q, v, ClientMove(Request(0, true)), q[n].reply.row, q[n].reply.column);
    }
  }

  /** Agreement across rematches, exactly. Client k wipes its replica with no other
      GAME_END pending; any events follow in which it wipes nothing. At a head of the loop
      with no GAME_END pending, on whose board no stale cell has been played meanwhile,
      its replica after the pending messages is the board if and only if the wipe was
      clean. */
  lemma {:induction false} AgreementExact(j: Joint, s: State, first: Player, events: seq<Event>, e: Event, more: seq<Event>, k: Player)
    requires SessionStart(j, s, first)
    requires var t := AnyReach(j, events);
             && Goes(t.server) && Wipes(t, e, k) && NoEnd(AnyNext(t, e).queues[k])
             && var u := AnyReach(AnyNext(t, e), more);
                Undisturbed(AnyNext(t, e), more, k) && u.server.phase.Playing? && NoEnd(u.queues[k]) && Unplayed(t, e, k, u)
    ensures var t := AnyReach(j, events);
            var u := AnyReach(AnyNext(t, e), more);
            Overlay(u.clients[k].cells, u.queues[k], s.symbols[k], s.symbols[Other(k)]) == u.server.board.cells <==> CleanWipe(t, e, k)
  {
    SessionBegins(j, s, first);
    AnyReachInv(j, events);
    LaterExact(AnyReach(j, events), e, more, k);
  }

  lemma LaterExact(t: Joint, e: Event, more: seq<Event>, k: Player)
    requires SessionInv(t) && Goes(t.server) && Wipes(t, e, k) && NoEnd(AnyNext(t, e).queues[k])
    requires var u := AnyReach(AnyNext(t, e), more);
             Undisturbed(AnyNext(t, e), more, k) && u.server.phase.Playing? && NoEnd(u.queues[k]) && Unplayed(t, e, k, u)
    ensures var u := AnyReach(AnyNext(t, e), more);
            Overlay(u.clients[k].cells, u.queues[k], t.server.symbols[k], t.server.symbols[Other(k)]) == u.server.board.cells
            <==> CleanWipe(t, e, k)
  {
    var t' := AnyNext(t, e);
    var u := AnyReach(t', more);
    NextInv(t, e);
    AnyReachInv(t', more);
    SessionSees(u, k);
    if CleanWipe(t, e, k) {
      WipeIsExact(t, e, k);
      KeptLasts(t', more, k);
      CohereOverlay(Reference(u), u.clients[k].cells, u.queues[k], ViewOf(u, k));
    } else {
      SpoiledLasts(t, e, more, k);
    }
  }

  lemma SpoiledLasts(t: Joint, e: Event, more: seq<Event>, k: Player)
    requires SessionInv(t) && Goes(t.server) && Wipes(t, e, k) && NoEnd(AnyNext(t, e).queues[k]) && !CleanWipe(t, e, k)
    requires SessionInv(AnyNext(t, e))
    requires var u := AnyReach(AnyNext(t, e), more);
             && Undisturbed(AnyNext(t, e), more, k) && u.server.phase.Playing? && NoEnd(u.queues[k]) && Unplayed(t, e, k, u)
             && SessionInv(u)
    ensures var u := AnyReach(AnyNext(t, e), more);
            Overlay(u.clients[k].cells, u.queues[k], t.server.symbols[k], t.server.symbols[Other(k)]) != u.server.board.cells
  {
    var t' := AnyNext(t, e);
    var u := AnyReach(t', more);
    var lost, r, c, n := SpoiledWipe(t, e, k);
    SessionSees(u, k);
    if lost {
      LostLasts(t', more, k, r, c);
      OverlayAvoids(u.clients[k].cells, u.queues[k], ViewOf(u, k), r, c, ViewOf(u, k).own);
    } else {
      MarkedLasts(t', more, k, r, c);
      OverlayKeeps(u.clients[k].cells, u.queues[k], ViewOf(u, k), r, c);
    }
  }
}
