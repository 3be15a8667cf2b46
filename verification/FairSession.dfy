/** Sessions in which no turn times out: any number of matches, with every other signal
    at every moment, and clients that quit. The players answer, and while a match is on
    the server takes a client's move before the client could. */
module FairSession {
  import opened Messages
  import opened Match
  import opened MatchSafety
  import opened Replica
  import opened Protocol
  import opened FairClients
  import opened FairServer

  // ----- Theorems

  /** Priority equals FIFO, over any number of matches: on each queue the server's
      messages, but for a final error, ascend strictly, so a receive that returns one of
      them returns the one sent first. Until the session is over for good, that is the
      head of the queue. */
  lemma {:induction false} PriorityIsFifo(j: Joint, s: State, first: Player, turns: seq<Turn>, k: Player, i: nat)
    requires SessionStart(j, s, first)
    requires Takes(FairReach(j, turns).queues[k], -MSG_GAME_START, i)
    ensures var q := FairReach(j, turns).queues[k];
            Ordered(q) && (Plain(q[i]) ==> forall a :: 0 <= a < i ==> !Plain(q[a]))
    ensures !Over(FairReach(j, turns).server.phase) ==>
              i == 0 && Ascending(FairReach(j, turns).queues[k])
  {
    SessionStarts(j, s, first);
    FairReachKeeps(j, turns);
    var t := FairReach(j, turns);
    var q := t.queues[k];
    assert SeatOf(t, k);
    if !Over(t.server.phase) {
      SeatAscending(t.server.phase, k == t.server.current, t.clients[k], q, t.server.board.cells, Blank(t));
      FirstIsTaken(q, i);
    }
    forall a | 0 <= a < i && Plain(q[i]) ensures !Plain(q[a]) {
      assert Eligible(q[a].Type(), -MSG_GAME_START);
    }
  }

  /** A final error overtakes: once one is pending, the client takes the oldest error, and
      with it everything older is overtaken; a final one makes the client leave, whatever
      else it has not seen. */
  lemma {:induction false} FinalOvertakes(j: Joint, s: State, first: Player, turns: seq<Turn>, k: Player, i: nat, f: nat)
    requires SessionStart(j, s, first)
    requires var t := FairReach(j, turns);
             f < |t.queues[k]| && Final(t.queues[k][f]) && t.clients[k].mode.Ready? && Takes(t.queues[k], -MSG_GAME_START, i)
    ensures var t := FairReach(j, turns);
            var c := Take(t.clients[k], t.queues[k][i]);
            && Over(t.server.phase) && i <= f && t.queues[k][i].Error?
            && (forall a :: 0 <= a < i ==> !t.queues[k][a].Error?)
            && (if Final(t.queues[k][i]) then c.mode == Left(-5) || c.mode == Left(-8) else c.mode.Asking?)
            && (c.mode == Left(-8) ==> k != t.server.current && t.server.phase == Ended(-1))
  {
    SessionStarts(j, s, first);
    FairReachKeeps(j, turns);
    var t := FairReach(j, turns);
    var q := t.queues[k];
    assert SeatOf(t, k);
    if !Over(t.server.phase) {
      SeatAscending(t.server.phase, k == t.server.current, t.clients[k], q, t.server.board.cells, Blank(t));
    }
    assert Eligible(q[f].Type(), -MSG_GAME_START) && Possible(t.server.phase, k == t.server.current, q[i]);
  }

  /** Agreement across rematches: at every head of the loop, in every match of the
      session, each replica after its pending messages is the server's board; so a
      client with an empty queue holds exactly that board. */
  lemma {:induction false} AgreementAcrossRematches(j: Joint, s: State, first: Player, turns: seq<Turn>, k: Player)
    requires SessionStart(j, s, first)
    ensures var t := FairReach(j, turns);
            t.server.phase.Playing? ==>
              && After(t.clients[k], t.queues[k]) == t.server.board.cells
              && (t.queues[k] == [] ==> t.clients[k].cells == t.server.board.cells)
  {
    SessionStarts(j, s, first);
    FairReachKeeps(j, turns);
    assert SeatOf(FairReach(j, turns), k);
  }

  /** How such a session can end for a client that does not quit: a draw for both; no
      rematch, for the winner who declines it and for the loser, whom the server tells
      that the winner declined or left; or the disconnection of the opponent. */
  lemma {:induction false} FairExits(j: Joint, s: State, first: Player, turns: seq<Turn>, k: Player)
    requires SessionStart(j, s, first)
    ensures var t := FairReach(j, turns); FairExit(t.server.phase, k == t.server.current, t.clients[k].mode)
  {
    SessionStarts(j, s, first);
    FairReachKeeps(j, turns);
    var t := FairReach(j, turns);
    assert SeatOf(t, k);
    SeatExits(t.server.phase, k == t.server.current, t.clients[k], t.queues[k], t.server.board.cells, Blank(t));
  }

  /** The return value of a client, if it has left the loop, against the server's phase. */
  predicate FairExit(phase: Phase, mover: bool, mode: Mode) {
    match mode
    case Left(code) =>
      || code == 0
      || (code == -4 && phase == Ended(-4))
      || (code == -5 && Over(phase))
      || (code == -7 && mover && (phase.Deciding? || phase == Ended(-1) || phase == Killed))
      || (code == -8 && !mover && phase == Ended(-1))
    case Aborted => false
    case _ => true
  }

  lemma SeatExits(phase: Phase, mover: bool, c: ClientState, q: seq<Message>, board: seq<seq<char>>, blank: seq<seq<char>>)
    requires Seat(phase, mover, c, q, board, blank)
    requires phase.Ended? ==> Over(phase) || phase.status >= 0 || phase.status == -4
    ensures FairExit(phase, mover, c.mode)
  {
  }

  // ----- No deadlock

  /** A turn without a signal. */
  predicate Silent(t: Turn) { (t.Serves? ==> t.signals == [] && t.late == []) && !t.Leaves? }

  /** No session gets stuck: as long as the loop is on, or the next match is due, and the
      player to act has not quit, some turn without a signal changes the state. */
  lemma {:induction false} NoDeadlock(j: Joint, s: State, first: Player, turns: seq<Turn>) returns (t: Turn)
    requires SessionStart(j, s, first)
    requires var u := FairReach(j, turns);
             && (Active(u.server) || Rematch(u.server))
             && u.clients[u.server.current].mode != Left(0)
    ensures Silent(t) && FairNext(FairReach(j, turns), t) != FairReach(j, turns)
  {
    SessionStarts(j, s, first);
    FairReachKeeps(j, turns);
    var u := FairReach(j, turns);
    if Rematch(u.server) {
      t := Rematches;
    } else {
      t := NextTurn(u);
    }
  }

  lemma NextTurn(j: Joint) returns (t: Turn)
    requires FairInv(j) && Active(j.server) && j.clients[j.server.current].mode != Left(0)
    ensures Silent(t) && FairNext(j, t) != j
  {
    var p := j.server.current;
    var c, q := j.clients[p], j.queues[p];
    assert SeatOf(j, p);
    if q == [] {
      t := Plays(p, if c.mode.Asking? then Column(0) else Restart);
      AnswersChange(j, p, t.answer);
    } else if q[0].ClientMove? {
      t := Serves([], Some(0), []);
      ServingChanges(j);
    } else {
      SeatAscending(j.server.phase, true, c, q, j.server.board.cells, Blank(j));
      HeadIsTaken(q);
      t := Delivers(p, 0);
      assert |RemoveAt(q, 0)| < |q|;
    }
  }

  lemma HeadIsTaken(q: seq<Message>)
    requires Ascending(q) && q != []
    ensures Takes(q, -MSG_GAME_START, 0)
  {
  }

  lemma AnswersChange(j: Joint, p: Player, answer: Answer)
    requires WellFormed(j)
    requires (j.clients[p].mode.Asking? && answer == Column(0)) || (j.clients[p].mode.Confirming? && answer == Restart)
    ensures FairNext(j, Plays(p, answer)) != j
  {
    assert Enabled(j, Answers(p, answer));
    assert |Next(j, Answers(p, answer)).queues[p]| == |j.queues[p]| + 1;
  }

  lemma ServingChanges(j: Joint)
    requires FairInv(j) && Active(j.server) && j.queues[j.server.current] != [] && j.queues[j.server.current][0].ClientMove?
    ensures FairNext(j, Serves([], Some(0), [])) != j
  {
    var p, a := j.server.current, Wakes([], Some(0), []);
    assert Enabled(j, a) && SeatOf(j, p);
    MoveIsAlone(j.clients[p], j.queues[p], 0);
    assert Remaining(j, a, p) == [];
    ServerMessages(j.server, WakeOf(j, a));
    ServerSendsNoMoves(Step(j.server, WakeOf(j, a)).sends, p);
    var q := Next(j, a).queues[p];
    assert q == ToPlayer(Step(j.server, WakeOf(j, a)).sends, p);
    assert q != [] ==> !q[0].ClientMove?;
  }
}
