/** Sessions in which no turn times out: what the queues and the replicas look like, and what
    the clients' steps keep of it. */
module FairClients {
  import opened Messages
  import opened Grid
  import opened Match
  import opened MatchSafety
  import opened Replica
  import opened Protocol

  datatype Turn =
    | Serves(signals: seq<Signal>, taken: Option<nat>, late: seq<Signal>) // the server's receive returns, or is retried
    | Delivers(k: Player, i: nat)                                         // client k takes message i
    | Plays(k: Player, answer: Answer)                                    // the player of client k answers
    | Leaves(k: Player)                                                   // client k is interrupted
    | Rematches                                                           // the main loop starts the next match

  predicate NoAlarm(signals: seq<Signal>) { forall i :: 0 <= i < |signals| ==> !signals[i].SigAlarm? }

  /** A turn that this kind of session does not have leaves everything as it is. */
  ghost function FairNext(j: Joint, t: Turn): (j': Joint)
    requires WellFormed(j)
    ensures WellFormed(j') && SameGame(j.server, j'.server)
  {
    match t
    case Serves(signals, taken, late) => if NoAlarm(signals) && NoAlarm(late) then Next(j, Wakes(signals, taken, late)) else j
    case Delivers(k, i) =>
      if i < |j.queues[k]| && j.queues[k][i].ClientMove? && Active(j.server) then j else Next(j, Receives(k, i))
    case Plays(k, answer) => if answer.GaveUp? then j else Next(j, Answers(k, answer))
    case Leaves(k) => if j.clients[k].mode.Left? then j else Next(j, Quits(k))
    case Rematches =>
      if j.server.phase == Ended(0) || j.server.phase == Ended(1) then
        var p := Other(j.server.phase.status);
        j.(server := Begin(j.server, p).st, reference := j.server.board.cells,
        queues := j.queues[p := j.queues[p] + [GameStart(NO_UPDATE)]])
      else j
  }

  ghost function FairReach(j: Joint, turns: seq<Turn>): (j': Joint)
    requires WellFormed(j)
    ensures WellFormed(j') && SameGame(j.server, j'.server)
  {
    if turns == [] then j else FairNext(FairReach(j, turns[..|turns| - 1]), turns[|turns| - 1])
  }

  // ----- What the queues look like

  predicate Acked(q: seq<Message>) { q == [] || (|q| == 1 && q[0].ServerAck?) }

  /** What a player who lost may still have to take. */
  predicate Losing(q: seq<Message>) {
    q == [] || (|q| == 1 && Lose(q[0])) || (|q| == 2 && q[0].ServerAck? && Lose(q[1]))
  }

  /** A client that is not waiting for its player, or has quit. */
  predicate Idle(c: ClientState) { c.mode.Ready? || c.mode == Left(0) }

  /** The player whose turn it is. */
  predicate ToMove(c: ClientState, q: seq<Message>) {
    || (Idle(c) && q != [] && q[|q| - 1].TurnStart? && Acked(q[..|q| - 1]))
    || (Idle(c) && q != [] && q[|q| - 1].GameStart? && (Acked(q[..|q| - 1]) || Losing(q[..|q| - 1])))
    || ((c.mode.Asking? || c.mode == Left(0)) && q == [])
    || (Idle(c) && |q| == 1 && q[0].ClientMove? && !q[0].request.restartMatch)
    || (Idle(c) && q == [Error(400, InvalidMove)])
  }

  predicate Waiting(c: ClientState, q: seq<Message>) { Idle(c) && Acked(q) }

  predicate Winning(c: ClientState, q: seq<Message>) {
    || (Idle(c) && |q| == 2 && q[0].ServerAck? && Win(q[1]))
    || (Idle(c) && |q| == 1 && Win(q[0]))
    || ((c.mode.Confirming? || c.mode == Left(0)) && q == [])
    || (Idle(c) && |q| == 1 && q[0].ClientMove? && q[0].request.restartMatch)
    || (c.mode == Left(-7) && |q| == 1 && q[0].ClientMove? && !q[0].request.restartMatch)
  }

  predicate Drawn(c: ClientState, q: seq<Message>) {
    || (Idle(c) && |q| == 2 && q[0].ServerAck? && DrawEnd(q[1]))
    || (Idle(c) && |q| == 1 && DrawEnd(q[0]))
    || ((c.mode == Left(-4) || c.mode == Left(0)) && q == [])
  }

  // ----- Once the server has left the loop

  /** The two errors that end a session for a client. */
  predicate Final(m: Message) { m.Error? && (m.code == 601 || m.code == 602) }

  /** A message of the server that does not end the session. */
  predicate Plain(m: Message) { !m.ClientMove? && !Final(m) }

  /** The server's messages, but for a final error, are in strictly ascending type order. */
  predicate Ordered(q: seq<Message>) {
    forall a, b :: 0 <= a < b < |q| && Plain(q[a]) && Plain(q[b]) ==> q[a].Type() < q[b].Type()
  }

  /** The server is gone: no draw, no rematch, no match that goes on. */
  predicate Over(phase: Phase) { phase == Ended(-1) || phase == Ended(-2) || phase == Killed }

  /** A message that may then be on the queue of the current player (`mover`) or the other. */
  predicate Possible(phase: Phase, mover: bool, m: Message) {
    match m
    case Error(code, _) => code == 400 || code == 601 || (code == 602 && phase == Ended(-1) && !mover)
    case GameEnd(r) => if r.winner then mover && phase != Ended(-2) else !r.draw
    case _ => true
  }

  predicate PossibleMode(phase: Phase, mover: bool, mode: Mode) {
    match mode
    case Confirming => mover && phase != Ended(-2)
    case Left(code) =>
      || code == 0 || code == -5
      || (code == -7 && mover && phase != Ended(-2))
      || (code == -8 && !mover && phase == Ended(-1))
    case Aborted => false
    case _ => true
  }

  predicate Leftover(phase: Phase, mover: bool, c: ClientState, q: seq<Message>) {
    Ordered(q) && PossibleMode(phase, mover, c.mode) && forall i :: 0 <= i < |q| ==> Possible(phase, mover, q[i])
  }

  // ----- What the replicas will show

  /** The replica after the pending messages, in the order of the queue. */
  function After(c: ClientState, q: seq<Message>): seq<seq<char>>
    decreases |q|
  {
    if q == [] then c.cells else After(Take(c, q[0]), q[1..])
  }

  lemma {:induction false} AfterSnoc(c: ClientState, q: seq<Message>, m: Message)
    ensures After(c, q + [m]) == Take(c.(cells := After(c, q)), m).cells
    decreases |q|
  {
    if q == [] {
      assert (q + [m])[1..] == [];
    } else {
      assert (q + [m])[1..] == q[1..] + [m];
      AfterSnoc(Take(c, q[0]), q[1..], m);
    }
  }

  // ----- The invariant

  ghost predicate FairBase(j: Joint) {
    && BoardOk(j) && !j.server.flags.timeout
    && Rectangle(j.clients[0].cells, j.server.board.rows, j.server.board.columns)
    && Rectangle(j.clients[1].cells, j.server.board.rows, j.server.board.columns)
  }

  /** One client and its queue, given the server's phase and whether that client's
      player is the server's current one. */
  ghost predicate Seat(phase: Phase, mover: bool, c: ClientState, q: seq<Message>, board: seq<seq<char>>, blank: seq<seq<char>>) {
    match phase
    case Playing => (if mover then ToMove(c, q) else Waiting(c, q)) && After(c, q) == board
    case Deciding =>
      if mover then Winning(c, q) && (q != [] && q[0].ClientMove? && q[0].request.restartMatch ==> c.cells == blank)
      else Idle(c) && Losing(q) && After(c, q) == blank
    case Ended(status) =>
      if status == -4 then Drawn(c, q) && After(c, q) == board
      else if status >= 0 then board == blank && Idle(c) && (if mover then q == [] else Losing(q)) && After(c, q) == blank
      else Leftover(phase, mover, c, q)
    case Killed => Leftover(phase, mover, c, q)
  }

  ghost predicate SeatOf(j: Joint, k: Player)
    requires WellFormed(j)
  {
    Seat(j.server.phase, k == j.server.current, j.clients[k], j.queues[k], j.server.board.cells, Blank(j))
  }

  ghost predicate PhaseInv(j: Joint)
    requires WellFormed(j)
  {
    && SeatOf(j, 0) && SeatOf(j, 1)
    && (j.server.phase.Ended? ==>
          Over(j.server.phase) || j.server.phase.status == -4 || j.server.phase.status == j.server.current)
  }

  ghost predicate FairInv(j: Joint) { FairBase(j) && PhaseInv(j) }

  // ----- First in, first out

  predicate Ascending(q: seq<Message>) { forall a, b :: 0 <= a < b < |q| ==> q[a].Type() < q[b].Type() }

  lemma SeatAscending(phase: Phase, mover: bool, c: ClientState, q: seq<Message>, board: seq<seq<char>>, blank: seq<seq<char>>)
    requires Seat(phase, mover, c, q, board, blank) && !Over(phase)
    requires phase.Ended? ==> phase.status >= 0 || phase.status == -4
    ensures Ascending(q) && forall i :: 0 <= i < |q| ==> !Final(q[i])
  {
    if |q| > 0 {
      var front := q[..|q| - 1];
      assert forall i :: 0 <= i < |front| ==> front[i] == q[i];
    }
  }

  // ----- A client takes a message

  lemma TakeKeepsShape(c: ClientState, m: Message, rows: nat, columns: nat)
    requires Rectangle(c.cells, rows, columns)
    ensures Rectangle(Take(c, m).cells, rows, columns)
  {
  }

  lemma TakeFirst(c: ClientState, q: seq<Message>)
    requires c.mode.Ready? && q != [] && !q[0].ClientMove?
    ensures ToMove(c, q) ==> ToMove(Take(c, q[0]), q[1..])
    ensures Waiting(c, q) ==> Waiting(Take(c, q[0]), q[1..])
    ensures Losing(q) ==> Take(c, q[0]).mode.Ready? && Losing(q[1..])
    ensures Drawn(c, q) ==> Drawn(Take(c, q[0]), q[1..])
    ensures Winning(c, q) ==> Winning(Take(c, q[0]), q[1..]) && (q[1..] != [] ==> !q[1..][0].ClientMove?)
  {
    if ToMove(c, q) { TakeToMove(c, q); }
  }

  lemma TakeToMove(c: ClientState, q: seq<Message>)
    requires c.mode.Ready? && q != [] && !q[0].ClientMove? && ToMove(c, q)
    ensures ToMove(Take(c, q[0]), q[1..])
  {
    var n, rest := |q| - 1, q[1..];
    if n > 0 {
      assert q[..n][0] == q[0] && rest[|rest| - 1] == q[n];
      if n == 1 {
        assert rest[..0] == [];
      } else {
        assert q[..n][1] == q[1] && rest[..1] == [q[1]] && |q| == 3;
      }
    }
  }

  lemma SeatTakes(phase: Phase, mover: bool, c: ClientState, q: seq<Message>, board: seq<seq<char>>, blank: seq<seq<char>>, i: nat)
    requires Seat(phase, mover, c, q, board, blank) && c.mode.Ready?
    requires phase.Ended? ==> Over(phase) || phase.status >= 0 || phase.status == -4
    requires Takes(q, -MSG_GAME_START, i) && (q[i].ClientMove? ==> !phase.Playing? && !phase.Deciding?)
    ensures Seat(phase, mover, Take(c, q[i]), RemoveAt(q, i), board, blank)
  {
    if Over(phase) {
      LeftoverTakes(phase, mover, c, q, i);
    } else {
      SeatAscending(phase, mover, c, q, board, blank);
      FirstIsTaken(q, i);
      assert RemoveAt(q, 0) == q[1..];
      assert q[0].ClientMove? ==> phase.Ended? && !Losing(q) && !Drawn(c, q);
      TakeFirst(c, q);
    }
  }

  lemma LeftoverTakes(phase: Phase, mover: bool, c: ClientState, q: seq<Message>, i: nat)
    requires Leftover(phase, mover, c, q) && c.mode.Ready? && i < |q|
    ensures Leftover(phase, mover, Take(c, q[i]), RemoveAt(q, i))
  {
    LeftoverWithout(phase, mover, c, q, i);
    assert Possible(phase, mover, q[i]);
  }

  lemma LeftoverWithout(phase: Phase, mover: bool, c: ClientState, q: seq<Message>, i: nat)
    requires Leftover(phase, mover, c, q) && i < |q|
    ensures Leftover(phase, mover, c, RemoveAt(q, i))
  {
    var rest := RemoveAt(q, i);
    forall a | 0 <= a < |rest| ensures rest[a] == q[if a < i then a else a + 1] {}
  }

  lemma DeliverKeeps(j: Joint, k: Player, i: nat)
    requires FairInv(j) && Enabled(j, Receives(k, i)) && (j.queues[k][i].ClientMove? ==> !Active(j.server))
    ensures FairInv(Next(j, Receives(k, i)))
  {
    assert SeatOf(j, k);
    TakeKeepsShape(j.clients[k], j.queues[k][i], j.server.board.rows, j.server.board.columns);
    SeatTakes(j.server.phase, k == j.server.current, j.clients[k], j.queues[k], j.server.board.cells, Blank(j), i);
    var j' := Next(j, Receives(k, i));
    assert SeatOf(j', k);
    assert SeatOf(j, Other(k)) && SeatOf(j', Other(k));
  }

  /** On such a queue the lowest-type receive takes the head. */
  lemma FirstIsTaken(q: seq<Message>, i: nat)
    requires Ascending(q) && Takes(q, -MSG_GAME_START, i)
    ensures i == 0
  {
    AscendingIsFifo(q, -MSG_GAME_START, i);
  }

  // ----- A player answers

  lemma SeatPlays(phase: Phase, mover: bool, c: ClientState, q: seq<Message>, board: seq<seq<char>>, blank: seq<seq<char>>, answer: Answer)
    requires Seat(phase, mover, c, q, board, blank) && Wipe(c.cells) == blank && !answer.GaveUp?
    requires phase.Ended? ==> Over(phase) || phase.status >= 0 || phase.status == -4
    requires c.mode.Asking? || c.mode.Confirming?
    ensures var r := React(c, answer);
            Seat(phase, mover, r.state, q + r.sends, board, blank)
  {
    var r := React(c, answer);
    if Over(phase) {
      LeftoverAnswers(phase, mover, c, q, answer);
    } else {
      assert q == [] && q + r.sends == r.sends;
      if r.sends != [] {
        AfterSnoc(r.state, [], r.sends[0]);
        assert [] + [r.sends[0]] == r.sends;
      }
    }
  }

  lemma LeftoverAnswers(phase: Phase, mover: bool, c: ClientState, q: seq<Message>, answer: Answer)
    requires Leftover(phase, mover, c, q)
    ensures var r := React(c, answer); Leftover(phase, mover, r.state, q + r.sends)
  {
    var r := React(c, answer);
    if r.sends == [] {
      assert q + r.sends == q;
    } else {
      LeftoverMore(phase, mover, r.state, q, r.sends[0]);
      assert r.sends == [r.sends[0]];
    }
  }

  /** A message that is not subject to the order. */
  lemma LeftoverMore(phase: Phase, mover: bool, c: ClientState, q: seq<Message>, m: Message)
    requires Leftover(phase, mover, c, q) && !Plain(m) && Possible(phase, mover, m)
    ensures Leftover(phase, mover, c, q + [m])
  {
  }

  lemma PlayKeeps(j: Joint, k: Player, answer: Answer)
    requires FairInv(j) && Enabled(j, Answers(k, answer)) && !answer.GaveUp?
    ensures FairInv(Next(j, Answers(k, answer)))
  {
    assert SeatOf(j, k);
    WipeIsBlank(j.clients[k].cells, j.server.board.rows, j.server.board.columns);
    SeatPlays(j.server.phase, k == j.server.current, j.clients[k], j.queues[k], j.server.board.cells, Blank(j), answer);
    var j' := Next(j, Answers(k, answer));
    assert SeatOf(j', k);
    assert SeatOf(j, Other(k)) && SeatOf(j', Other(k));
  }

  // ----- A client quits

  lemma LeaveKeeps(j: Joint, k: Player)
    requires FairInv(j) && !j.clients[k].mode.Left?
    ensures FairInv(Next(j, Quits(k)))
  {
    var j' := Next(j, Quits(k));
    assert SeatOf(j, k) && SeatOf(j, Other(k));
    AfterMode(j.clients[k], j'.clients[k], j.queues[k]);
    assert SeatOf(j', k) && SeatOf(j', Other(k));
  }

  /** The mode does not matter to what a message writes. */
  lemma {:induction false} AfterMode(c: ClientState, d: ClientState, q: seq<Message>)
    requires d == c.(mode := d.mode)
    ensures After(c, q) == After(d, q)
    decreases |q|
  {
    if q == [] {
    } else {
      AfterMode(Take(c, q[0]), Take(d, q[0]), q[1..]);
    }
  }
}
