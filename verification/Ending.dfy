/** Sessions in which no turn times out can always be brought to an end. */
module Ending {
  import opened Messages
  import opened Grid
  import opened Match
  import opened MatchSafety
  import opened Session
  import opened Replica
  import opened Protocol
  import opened FairClients
  import opened FairServer
  import opened FairSession

  // ----- The server's state belongs to some run

  /** The state of some run of a match. */
  ghost predicate Lawful(s: State) { exists r: Run :: Inv(r) && r.st == s }

  lemma LawfulStep(s: State, w: Wake)
    requires Lawful(s)
    ensures Good(s) && Lawful(Step(s, w).state)
  {
    var r: Run :| Inv(r) && r.st == s;
    StepKeeps(r, w);
    assert RunStep(r, w).st == Step(s, w).state;
  }

  lemma LawfulBegin(s: State, first: Player)
    requires Lawful(s) && Good(s) && (s.phase == Ended(0) || s.phase == Ended(1))
    ensures Lawful(Begin(s, first).st)
  {
    var r: Run :| Inv(r) && r.st == s;
    ReadyAgain(r);
    BeginKeeps(s, first);
  }

  /** At a head of the loop there is room for a disc, and the counter tells how much. */
  lemma LawfulRoom(s: State) returns (c: Int32)
    requires Lawful(s) && Good(s) && s.phase.Playing? && NoWrap(s.board)
    ensures 0 <= c < s.board.columns && HasRoom(s.board, c) && s.moves < s.board.rows * s.board.columns
  {
    var r: Run :| Inv(r) && r.st == s;
    CounterAgreement(s.board);
    var d :| HasRoom(s.board, d);
    c := d;
  }

  // ----- The state of a session that may go on

  /** Neither client has quit. */
  predicate Present(j: Joint) { |j.clients| == 2 && j.clients[0].mode != Left(0) && j.clients[1].mode != Left(0) }

  ghost predicate Alive(j: Joint) {
    FairInv(j) && Lawful(j.server) && NoWrap(j.server.board) && Present(j)
  }

  lemma AliveNext(j: Joint, t: Turn)
    requires Alive(j) && Silent(t)
    ensures Alive(FairNext(j, t))
  {
    FairKeeps(j, t);
    TurnLawful(j, t);
    StillPresent(j, t);
    NoWrapStays(j.server.board, FairNext(j, t).server.board);
  }

  lemma NoWrapStays(b: Board, d: Board)
    requires NoWrap(b) && d.rows == b.rows && d.columns == b.columns
    ensures NoWrap(d)
  {
  }

  lemma StillPresent(j: Joint, t: Turn)
    requires WellFormed(j) && Present(j) && Silent(t)
    ensures Present(FairNext(j, t))
  {
  }

  lemma {:induction false} AlwaysLawful(j: Joint, s: State, first: Player, turns: seq<Turn>)
    requires SessionStart(j, s, first)
    ensures Lawful(FairReach(j, turns).server)
  {
    if turns == [] {
      BeginKeeps(s, first);
    } else {
      var t, e := FairReach(j, turns[..|turns| - 1]), turns[|turns| - 1];
      AlwaysLawful(j, s, first, turns[..|turns| - 1]);
      SessionStarts(j, s, first);
      FairReachKeeps(j, turns[..|turns| - 1]);
      TurnLawful(t, e);
    }
  }

  lemma TurnLawful(j: Joint, t: Turn)
    requires FairInv(j) && Lawful(j.server)
    ensures Lawful(FairNext(j, t).server)
  {
    match t
    case Serves(signals, taken, late) =>
      if Enabled(j, Wakes(signals, taken, late)) { LawfulStep(j.server, WakeOf(j, Wakes(signals, taken, late))); }
    case Rematches => if j.server.phase == Ended(0) || j.server.phase == Ended(1) { LawfulBegin(j.server, Other(j.server.phase.status)); }
    case _ =>
  }

  // ----- The measure

  /** A move of the player's own is pending. */
  predicate MovePends(q: seq<Message>) { q != [] && q[0].ClientMove? }

  /** A rematch is asked for; it is due; the match is on; it is decided; the session is over. */
  ghost function Stage(j: Joint): nat
    requires WellFormed(j)
  {
    var q := j.queues[j.server.current];
    if j.server.phase.Deciding? then (if MovePends(q) && q[0].request.restartMatch then 4 else 1)
    else if Rematch(j.server) then 3
    else if j.server.phase.Playing? then 2
    else 0
  }

  /** Discs still to be dropped. */
  ghost function DiscsLeft(j: Joint): nat
    requires WellFormed(j)
  {
    var left := j.server.board.rows * j.server.board.columns - j.server.moves;
    if j.server.phase.Playing? && left >= 0 then left else 0
  }

  /** How far the player to act is from acting. */
  ghost function Distance(j: Joint): nat
    requires WellFormed(j)
  {
    var q := j.queues[j.server.current];
    if q == [] then 2
    else if MovePends(q) then (if j.server.phase.Playing? && !HasRoom(j.server.board, q[0].request.move) then 4 else 1)
    else 2 + |q|
  }

  ghost predicate Nearer(j: Joint, t: Joint)
    requires WellFormed(j) && WellFormed(t)
  {
    || Stage(t) < Stage(j)
    || (Stage(t) == Stage(j) && DiscsLeft(t) < DiscsLeft(j))
    || (Stage(t) == Stage(j) && DiscsLeft(t) == DiscsLeft(j) && Distance(t) < Distance(j))
  }

  // ----- A turn that brings the end nearer

  lemma BetterTurn(j: Joint) returns (t: Turn)
    requires Alive(j) && Stage(j) > 0
    ensures Silent(t) && Nearer(j, FairNext(j, t))
  {
    if Rematch(j.server) {
      assert j.server.phase == Ended(j.server.current);
      t := Rematches;
    } else {
      assert SeatOf(j, j.server.current);
      var q := j.queues[j.server.current];
      if q == [] {
        t := Act(j);
      } else if MovePends(q) {
        t := Serves([], Some(0), []);
        ServingHelps(j);
      } else {
        t := Delivers(j.server.current, 0);
        DeliveryHelps(j);
      }
    }
  }

  /** The player drops a disc where there is room, or declines a rematch. */
  lemma Act(j: Joint) returns (t: Turn)
    requires Alive(j) && Active(j.server) && j.queues[j.server.current] == [] && SeatOf(j, j.server.current)
    ensures Silent(t) && Nearer(j, FairNext(j, t))
  {
    var p := j.server.current;
    if j.server.phase.Playing? {
      var c := LawfulRoom(j.server);
      t := Plays(p, Column(c));
      assert Enabled(j, Answers(p, Column(c)));
      assert Next(j, Answers(p, Column(c))).queues[p] == [ClientMove(Request(c, false))];
    } else {
      t := Plays(p, Stop);
      assert Enabled(j, Answers(p, Stop));
      assert Next(j, Answers(p, Stop)).queues[p] == [ClientMove(Request(0, false))];
    }
  }

  lemma DeliveryHelps(j: Joint)
    requires Alive(j) && Active(j.server) && SeatOf(j, j.server.current)
    requires j.queues[j.server.current] != [] && !MovePends(j.queues[j.server.current])
    ensures Nearer(j, FairNext(j, Delivers(j.server.current, 0)))
  {
    var p := j.server.current;
    OneMove(j.clients[p], j.queues[p], j.server.phase);
    Delivered(j);
    ShorterIsNearer(j, FairNext(j, Delivers(p, 0)));
  }

  lemma Delivered(j: Joint)
    requires FairInv(j) && Present(j) && Active(j.server) && SeatOf(j, j.server.current)
    requires j.queues[j.server.current] != [] && !MovePends(j.queues[j.server.current])
    ensures var t, p := FairNext(j, Delivers(j.server.current, 0)), j.server.current;
            t.server == j.server && t.queues[p] == j.queues[p][1..]
  {
    var p := j.server.current;
    var c, q := j.clients[p], j.queues[p];
    SeatAscending(j.server.phase, true, c, q, j.server.board.cells, Blank(j));
    HeadIsTaken(q);
    assert RemoveAt(q, 0) == q[1..];
  }

  lemma ShorterIsNearer(j: Joint, t: Joint)
    requires WellFormed(j) && WellFormed(t) && Active(j.server) && t.server == j.server
    requires var q := j.queues[j.server.current];
             q != [] && !MovePends(q) && t.queues[j.server.current] == q[1..] && !MovePends(q[1..])
    ensures Nearer(j, t)
  {
  }

  /** Behind a message of the server there is no move. */
  lemma OneMove(c: ClientState, q: seq<Message>, phase: Phase)
    requires ToMove(c, q) || Winning(c, q)
    requires q != [] && !MovePends(q)
    ensures !MovePends(q[1..])
  {
    if MovePends(q[1..]) { MoveIsAlone(c, q, 1); }
  }

  lemma ServingHelps(j: Joint)
    requires Alive(j) && Active(j.server) && SeatOf(j, j.server.current) && MovePends(j.queues[j.server.current])
    ensures Nearer(j, FairNext(j, Serves([], Some(0), [])))
  {
    var p, a := j.server.current, Wakes([], Some(0), []);
    MoveIsAlone(j.clients[p], j.queues[p], 0);
    assert Enabled(j, a) && Remaining(j, a, p) == [];
    var t := Next(j, a);
    QueueAfter(j, a);
    if j.server.phase.Deciding? {
      DecidedHelps(j.server, WakeOf(j, a));
    } else {
      PlayedHelps(j, a);
    }
  }

  /** The server leaves no move behind. */
  lemma QueueAfter(j: Joint, a: Action)
    requires WellFormed(j) && a.Wakes? && Enabled(j, a) && Remaining(j, a, j.server.current) == []
    ensures Next(j, a).queues[j.server.current] == ToPlayer(Step(j.server, WakeOf(j, a)).sends, j.server.current)
    ensures !MovePends(Next(j, a).queues[j.server.current])
  {
    var p, sends := j.server.current, Step(j.server, WakeOf(j, a)).sends;
    ServerMessages(j.server, WakeOf(j, a));
    ServerSendsNoMoves(sends, p);
    assert Next(j, a).queues[p] == [] + ToPlayer(sends, p);
  }

  lemma DecidedHelps(s: State, w: Wake)
    requires Good(s) && s.phase.Deciding? && w.taken.Some?
    ensures var t := Step(s, w).state;
            && !t.phase.Playing? && !t.phase.Deciding? && (Rematch(t) ==> w.taken.value.restartMatch)
  {
  }

  lemma PlayedHelps(j: Joint, a: Action)
    requires Alive(j) && j.server.phase.Playing? && a == Wakes([], Some(0), []) && Enabled(j, a)
    requires MovePends(j.queues[j.server.current]) && Remaining(j, a, j.server.current) == []
    requires !MovePends(Next(j, a).queues[j.server.current])
    requires Next(j, a).queues[j.server.current] == ToPlayer(Step(j.server, WakeOf(j, a)).sends, j.server.current)
    ensures Nearer(j, Next(j, a))
  {
    var s, w := j.server, WakeOf(j, a);
    PlayedForm(s, w);
    var c := LawfulRoom(s);
    var t := Step(s, w).state;
    if t.phase.Playing? && t.board == s.board && t.moves == s.moves {
      RefusalSent(s.current);
    }
  }

  /** A move taken at the head of the loop ends the loop, decides the match, drops a disc,
      or is refused. */
  lemma PlayedForm(s: State, w: Wake)
    requires Lawful(s) && Good(s) && s.phase.Playing? && !Handle(s.flags, w.signals).timeout && w.signals == [] && w.taken.Some?
    ensures var t := Step(s, w);
            && !Rematch(t.state)
            && (t.state.phase.Playing? ==>
                  if HasRoom(s.board, w.taken.value.move) then t.state.moves == s.moves + 1
                  else t.state.board == s.board && t.state.moves == s.moves && t.state.current == s.current &&
                       t.sends == [Send(s.current, Error(400, InvalidMove))])
  {
    var r: Run :| Inv(r) && r.st == s;
    PlayingEnds(s, w);
    DropMeaning(s.board, w.taken.value.move, s.symbols[s.current]);
    var u := s.(flags := Handle(s.flags, w.signals));
    if HasRoom(s.board, w.taken.value.move) {
      MoveCases(u, w.taken.value.move);
    }
  }

  // ----- The end

  lemma FairLast(j: Joint, turns: seq<Turn>, t: Turn, all: seq<Turn>)
    requires WellFormed(j) && all == turns + [t]
    ensures FairReach(j, all) == FairNext(FairReach(j, turns), t)
  {
    assert all[..|turns|] == turns;
  }

  lemma FairCons(j: Joint, t: Turn, rest: seq<Turn>)
    requires WellFormed(j)
    ensures FairReach(j, [t] + rest) == FairReach(FairNext(j, t), rest)
  {
    FairLast(j, [], t, [t]);
    FairAfter(j, FairNext(j, t), [t], rest, [t] + rest);
  }

  lemma {:induction false} FairAfter(j: Joint, u: Joint, turns: seq<Turn>, rest: seq<Turn>, all: seq<Turn>)
    requires WellFormed(j) && WellFormed(u) && FairReach(j, turns) == u && all == turns + rest
    ensures FairReach(j, all) == FairReach(u, rest)
  {
    if rest == [] {
      assert all == turns;
    } else {
      var n, m := |rest| - 1, |all| - 1;
      Fronts(turns, rest, all);
      FairAfter(j, u, turns, rest[..n], all[..m]);
      FairAlike(j, u, all[..m], rest[..n], rest[n], all, rest);
    }
  }

  lemma Fronts<T>(turns: seq<T>, rest: seq<T>, all: seq<T>)
    requires rest != [] && all == turns + rest
    ensures var n, m := |rest| - 1, |all| - 1;
            all[..m] == turns + rest[..n] && all == all[..m] + [rest[n]] && rest == rest[..n] + [rest[n]]
  {
  }

  lemma FairAlike(j: Joint, u: Joint, before: seq<Turn>, rest: seq<Turn>, t: Turn, all: seq<Turn>, more: seq<Turn>)
    requires WellFormed(j) && WellFormed(u) && FairReach(j, before) == FairReach(u, rest)
    requires all == before + [t] && more == rest + [t]
    ensures FairReach(j, all) == FairReach(u, more)
  {
    FairLast(j, before, t, all);
    FairLast(u, rest, t, more);
  }

  predicate AllSilent(turns: seq<Turn>) { forall n :: 0 <= n < |turns| ==> Silent(turns[n]) }

  /** The loop has returned for good. */
  ghost predicate Finished(s: State) { !Active(s) && !Rematch(s) }

  lemma Extend(j: Joint, t: Turn, j': Joint, rest: seq<Turn>)
    requires WellFormed(j) && WellFormed(j') && j' == FairNext(j, t)
    requires Silent(t) && AllSilent(rest) && Finished(FairReach(j', rest).server)
    ensures AllSilent([t] + rest) && Finished(FairReach(j, [t] + rest).server)
  {
    FairCons(j, t, rest);
  }

  lemma Progress(j: Joint) returns (t: Turn, j': Joint)
    requires Alive(j) && Stage(j) > 0
    ensures Silent(t) && j' == FairNext(j, t) && Alive(j') && Nearer(j, j')
  {
    t := BetterTurn(j);
    AliveNext(j, t);
    j' := FairNext(j, t);
  }

  lemma {:induction false} Finish(j: Joint) returns (more: seq<Turn>)
    requires Alive(j)
    ensures AllSilent(more) && Finished(FairReach(j, more).server)
    decreases Stage(j), DiscsLeft(j), Distance(j)
  {
    if Stage(j) == 0 {
      more := [];
    } else {
      var t, j' := Progress(j);
      var rest := Finish(j');
      Extend(j, t, j', rest);
      more := [t] + rest;
    }
  }

  /** From every state of a session without timeouts that neither client has quit, some
      turns without a signal lead to its end: no deadlock, and no match that can only go
      on. */
  lemma {:induction false} CanEnd(j: Joint, s: State, first: Player, turns: seq<Turn>) returns (more: seq<Turn>)
    requires SessionStart(j, s, first) && NoWrap(s.board) && Present(FairReach(j, turns))
    ensures AllSilent(more) && Finished(FairReach(FairReach(j, turns), more).server)
  {
    SessionStarts(j, s, first);
    FairReachKeeps(j, turns);
    AlwaysLawful(j, s, first, turns);
    more := Finish(FairReach(j, turns));
  }
}
