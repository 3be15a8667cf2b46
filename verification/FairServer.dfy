/** What the server's steps keep of it. */
module FairServer {
  import opened Messages
  import opened Grid
  import opened Match
  import opened MatchSafety
  import opened Replica
  import opened Protocol
  import opened FairClients

  lemma LastOrFront(q: seq<Message>, i: nat)
    requires i < |q|
    ensures i == |q| - 1 || q[i] in q[..|q| - 1]
  {
    if i < |q| - 1 { assert q[..|q| - 1][i] == q[i]; }
  }

  /** A queue that holds a move of its own client holds nothing else. */
  lemma MoveIsAlone(c: ClientState, q: seq<Message>, i: nat)
    requires (ToMove(c, q) || Winning(c, q)) && i < |q| && q[i].ClientMove?
    ensures q == [q[0]] && q[0].ClientMove?
  {
    LastOrFront(q, i);
  }

  lemma OnlyMove(j: Joint, i: nat)
    requires FairInv(j) && Active(j.server) && Takes(j.queues[j.server.current], MSG_CLIENT_MOVE, i)
    ensures var q := j.queues[j.server.current];
            && i == 0 && |q| == 1 && q[0].ClientMove? && RemoveAt(q, i) == []
            && After(j.clients[j.server.current], q) == j.clients[j.server.current].cells
  {
    var p := j.server.current;
    var c, q := j.clients[p], j.queues[p];
    assert SeatOf(j, p) && q[i].ClientMove?;
    MoveIsAlone(c, q, i);
    AfterSnoc(c, [], q[0]);
    assert [] + [q[0]] == q;
  }

  /** The phase after an accepted move and what it sends to the mover and the opponent. */
  ghost predicate AcceptCase(phase: Phase, current: Player, p: Player, row: nat, move: nat, mine: seq<Message>, theirs: seq<Message>) {
    var ack := ServerAck(Reply(row, move, false, false, false, true));
    || (phase == Playing && current == Other(p) && mine == [ack] &&
        theirs == [TurnStart(Reply(row, move, false, false, false, true))])
    || (phase == Deciding && current == p && mine == [ack, GameEnd(Reply(row, move, true, false, true, false))] &&
        theirs == [GameEnd(Reply(row, move, false, false, true, true))])
    || (phase == Ended(-4) && current == p && mine == [ack, GameEnd(Reply(row, move, false, true, true, false))] &&
        theirs == [GameEnd(Reply(row, move, false, true, true, true))])
  }

  lemma AcceptForm(s: State, row: nat, move: nat)
    requires Good(s) && s.phase.Playing? && !s.flags.timeout
    ensures var p, t, sends := s.current, Accept(s, row, move).state, Accept(s, row, move).sends;
            && t.board == s.board && !t.flags.timeout
            && AcceptCase(t.phase, t.current, p, row, move, ToPlayer(sends, p), ToPlayer(sends, Other(p)))
  {
    AcceptAnnounces(s, row, move);
    AnnounceLists(Accept(s, row, move).sends, s.current, row, move);
  }

  /** The mover's queue after an accepted move. */
  lemma MoverSeat(c: ClientState, board: seq<seq<char>>, blank: seq<seq<char>>, row: nat, move: nat)
    requires Idle(c) && c.cells == board
    ensures var ack := ServerAck(Reply(row, move, false, false, false, true));
            var board' := Put(board, row, move, c.own);
            && Seat(Playing, false, c, [ack], board', blank)
            && Seat(Deciding, true, c, [ack, GameEnd(Reply(row, move, true, false, true, false))], board', blank)
            && Seat(Ended(-4), true, c, [ack, GameEnd(Reply(row, move, false, true, true, false))], board', blank)
  {
    var ack := ServerAck(Reply(row, move, false, false, false, true));
    var won := GameEnd(Reply(row, move, true, false, true, false));
    var drawn := GameEnd(Reply(row, move, false, true, true, false));
    AfterSnoc(c, [], ack);
    AfterSnoc(c, [ack], won);
    AfterSnoc(c, [ack], drawn);
    assert [] + [ack] == [ack] && [ack] + [won] == [ack, won] && [ack] + [drawn] == [ack, drawn];
  }

  /** The opponent's queue after an accepted move. */
  lemma OpponentSeat(c: ClientState, q: seq<Message>, board: seq<seq<char>>, rows: nat, columns: nat, row: nat, move: nat)
    requires Waiting(c, q) && After(c, q) == board && Rectangle(board, rows, columns)
    ensures var board', blank := Put(board, row, move, c.opponent), BlankCells(rows, columns);
            && Seat(Playing, true, c, q + [TurnStart(Reply(row, move, false, false, false, true))], board', blank)
            && Seat(Deciding, false, c, q + [GameEnd(Reply(row, move, false, false, true, true))], board', blank)
            && Seat(Ended(-4), false, c, q + [GameEnd(Reply(row, move, false, true, true, true))], board', blank)
  {
    var turn := TurnStart(Reply(row, move, false, false, false, true));
    var lost := GameEnd(Reply(row, move, false, false, true, true));
    var drawn := GameEnd(Reply(row, move, false, true, true, true));
    AfterSnoc(c, q, turn);
    AfterSnoc(c, q, lost);
    AfterSnoc(c, q, drawn);
    assert (q + [turn])[..|q|] == q;
    WipeIsBlank(Put(board, row, move, c.opponent), rows, columns);
  }

  lemma {:induction false} NoAlarmSounds(f: Flags, signals: seq<Signal>)
    requires |f.disconnected| == 2 && !f.timeout && NoAlarm(signals)
    ensures !Handle(f, signals).timeout
  {
    if signals == [] {
    } else {
      NoAlarmSounds(f, signals[..|signals| - 1]);
    }
  }

  /** A wake-up of the server in such a session. */
  ghost predicate Serving(j: Joint, a: Action)
    requires WellFormed(j)
  {
    a.Wakes? && Enabled(j, a) && NoAlarm(a.signals) && NoAlarm(a.late)
  }

  lemma ServeKeeps(j: Joint, a: Action)
    requires FairInv(j) && Serving(j, a)
    ensures FairInv(Next(j, a))
  {
    var s, w := j.server, WakeOf(j, a);
    var f := Handle(s.flags, w.signals);
    StepValid(s, w);
    NoAlarmSounds(s.flags, w.signals);
    if !f.killed && w.taken.None? && !f.happened {
      ServeWaits(j, a);
    } else if Over(Step(s, w).state.phase) {
      ServeEnds(j, a);
    } else if s.phase.Deciding? {
      ServeGrants(j, a);
    } else {
      ServeMove(j, a);
    }
  }

  /** The receive is retried. */
  lemma ServeWaits(j: Joint, a: Action)
    requires FairInv(j) && Serving(j, a) && a.taken.None?
    requires var f := Handle(j.server.flags, a.signals); !f.killed && !f.happened && !f.timeout
    ensures FairInv(Next(j, a))
  {
    var j' := Next(j, a);
    ToPlayerNone();
    assert Step(j.server, WakeOf(j, a)) == Stepped(j.server.(flags := Handle(j.server.flags, a.signals)), []);
    assert j'.queues[0] == j.queues[0] && j'.queues[1] == j.queues[1];
    assert SeatOf(j, 0) && SeatOf(j, 1);
    assert SeatOf(j', 0) && SeatOf(j', 1);
  }

  lemma ToPlayerNone()
    ensures ToPlayer([], 0) == [] && ToPlayer([], 1) == []
  {
  }

  /** What a wake-up that ends the session sends. */
  lemma EndForm(s: State, w: Wake)
    requires Good(s) && Active(s) && !Handle(s.flags, w.signals).timeout && NoAlarm(w.late) && Over(Step(s, w).state.phase)
    ensures var t, sends := Step(s, w).state, Step(s, w).sends;
            && t.board == s.board && t.symbols == s.symbols && t.current == s.current && !t.flags.timeout
            && (s.phase.Deciding? ==> t.phase != Ended(-2))
            && (sends == [] || (|sends| == 1 && Final(sends[0].msg) && Possible(t.phase, sends[0].to == t.current, sends[0].msg)))
  {
    var f := Handle(s.flags, w.signals);
    NoAlarmSounds(f, w.late);
    if !f.killed && s.phase.Playing? && !f.happened { MoveGoesOn(s.(flags := f), w.taken.value.move); }
  }

  lemma MoveGoesOn(s: State, move: Int32)
    requires Good(s) && s.phase.Playing?
    ensures !Over(Move(s, move).state.phase)
  {
  }

  /** A seat of a match that is on, once the server has left. */
  lemma SeatIsLeftover(before: Phase, after: Phase, mover: bool, c: ClientState, q: seq<Message>, board: seq<seq<char>>, blank: seq<seq<char>>)
    requires Seat(before, mover, c, q, board, blank) && (before.Playing? || before.Deciding?)
    requires Over(after) && (before.Deciding? ==> after != Ended(-2))
    ensures Leftover(after, mover, c, q)
  {
    SeatAscending(before, mover, c, q, board, blank);
    forall i | 0 <= i < |q| ensures Possible(after, mover, q[i]) {
      if i < |q| - 1 { assert q[i] == q[..|q| - 1][i]; }
    }
  }

  lemma ServeEnds(j: Joint, a: Action)
    requires FairInv(j) && Serving(j, a) && Over(Step(j.server, WakeOf(j, a)).state.phase)
    ensures FairInv(Next(j, a))
  {
    StepValid(j.server, WakeOf(j, a));
    NoAlarmSounds(j.server.flags, a.signals);
    EndForm(j.server, WakeOf(j, a));
    var Stepped(t, sends) := Step(j.server, WakeOf(j, a));
    SeatEnds(j, a, t.phase, sends, 0);
    SeatEnds(j, a, t.phase, sends, 1);
    EndedSeats(j, Next(j, a));
  }

  lemma EndedSeats(j: Joint, j': Joint)
    requires FairBase(j) && BoardOk(j') && !j'.server.flags.timeout && SameGame(j.server, j'.server) && j'.clients == j.clients
    requires Over(j'.server.phase) && j'.server.current == j.server.current
    requires forall k: Player :: Leftover(j'.server.phase, k == j.server.current, j.clients[k], j'.queues[k])
    ensures FairInv(j')
  {
    assert SeatOf(j', 0) && SeatOf(j', 1);
  }

  lemma SeatEnds(j: Joint, a: Action, phase: Phase, sends: seq<Send>, k: Player)
    requires FairInv(j) && Serving(j, a) && Over(phase) && (j.server.phase.Deciding? ==> phase != Ended(-2))
    requires sends == [] || (|sends| == 1 && Final(sends[0].msg) && Possible(phase, sends[0].to == j.server.current, sends[0].msg))
    ensures Leftover(phase, k == j.server.current, j.clients[k], Remaining(j, a, k) + ToPlayer(sends, k))
  {
    assert SeatOf(j, k);
    SeatIsLeftover(j.server.phase, phase, k == j.server.current, j.clients[k], j.queues[k], j.server.board.cells, Blank(j));
    RemainingIsLeftover(j, a, k, phase);
    LeftoverGets(phase, j.server.current, k, j.clients[k], Remaining(j, a, k), sends);
  }

  lemma RemainingIsLeftover(j: Joint, a: Action, k: Player, phase: Phase)
    requires WellFormed(j) && Serving(j, a) && Leftover(phase, k == j.server.current, j.clients[k], j.queues[k])
    ensures Leftover(phase, k == j.server.current, j.clients[k], Remaining(j, a, k))
  {
    if k == j.server.current && a.taken.Some? {
      LeftoverWithout(phase, true, j.clients[k], j.queues[k], a.taken.value);
    }
  }

  /** At most one final error is sent. */
  lemma LeftoverGets(phase: Phase, current: Player, k: Player, c: ClientState, q: seq<Message>, sends: seq<Send>)
    requires Leftover(phase, k == current, c, q)
    requires sends == [] || (|sends| == 1 && Final(sends[0].msg) && Possible(phase, sends[0].to == current, sends[0].msg))
    ensures Leftover(phase, k == current, c, q + ToPlayer(sends, k))
  {
    ToPlayerNone();
    assert q + [] == q;
    if sends != [] {
      ToPlayerShort(sends[0], sends[0], sends[0], k);
      assert sends == [sends[0]];
      if sends[0].to == k { LeftoverMore(phase, k == current, c, q, sends[0].msg); }
    }
  }

  /** The server takes a move at the head of the loop. */
  lemma ServeMove(j: Joint, a: Action)
    requires FairInv(j) && Serving(j, a) && j.server.phase.Playing?
    requires var f := Handle(j.server.flags, a.signals); !f.timeout && !f.killed && (a.taken.None? ==> f.happened)
    requires !Over(Step(j.server, WakeOf(j, a)).state.phase)
    ensures FairInv(Next(j, a))
  {
    var s, w := j.server, WakeOf(j, a);
    StaysOnlyCalm(s, w);
    var move := w.taken.value.move;
    DropMeaning(s.board, move, s.symbols[s.current]);
    if HasRoom(s.board, move) { ServeAccepted(j, a, move); } else { ServeRefused(j, a, move); }
  }

  lemma StaysOnlyCalm(s: State, w: Wake)
    requires Good(s) && s.phase.Playing? && !Over(Step(s, w).state.phase)
    requires var f := Handle(s.flags, w.signals); !f.timeout && !f.killed && (w.taken.None? ==> f.happened)
    ensures w.taken.Some? && !Handle(s.flags, w.signals).happened
  {
  }

  lemma ServeRefused(j: Joint, a: Action, move: Int32)
    requires FairInv(j) && Serving(j, a) && j.server.phase.Playing? && Calm(Handle(j.server.flags, a.signals)) && a.taken.Some?
    requires move == WakeOf(j, a).taken.value.move && !HasRoom(j.server.board, move)
    ensures FairInv(Next(j, a))
  {
    var s, w, p := j.server, WakeOf(j, a), j.server.current;
    OnlyMove(j, a.taken.value);
    RefusedForm(s, w);
    RefusalSent(p);
    var j' := Next(j, a);
    assert j'.queues[p] == [] + [Error(400, InvalidMove)] && j'.queues[Other(p)] == j.queues[Other(p)] + [];
    RefusedSeats(j, j');
  }

  lemma RefusalSent(p: Player)
    ensures var refusal := Send(p, Error(400, InvalidMove));
            ToPlayer([refusal], p) == [refusal.msg] && ToPlayer([refusal], Other(p)) == []
  {
    var refusal := Send(p, Error(400, InvalidMove));
    ToPlayerShort(refusal, refusal, refusal, p);
    ToPlayerShort(refusal, refusal, refusal, Other(p));
  }

  lemma RefusedSeats(j: Joint, j': Joint)
    requires FairInv(j) && WellFormed(j') && j.server.phase.Playing? && j'.clients == j.clients && j'.reference == j'.server.board.cells
    requires j'.server == j.server.(received := true, flags := j'.server.flags) && !j'.server.flags.timeout
    requires var p := j.server.current;
             && Idle(j.clients[p]) && j.clients[p].cells == j.server.board.cells
             && j'.queues[p] == [Error(400, InvalidMove)] && j'.queues[Other(p)] == j.queues[Other(p)]
    ensures FairInv(j')
  {
    var p := j.server.current;
    AfterSnoc(j.clients[p], [], Error(400, InvalidMove));
    assert [] + [Error(400, InvalidMove)] == [Error(400, InvalidMove)];
    assert SeatOf(j, p) && SeatOf(j, Other(p));
    assert SeatOf(j', p) && SeatOf(j', Other(p));
  }

  lemma RefusedForm(s: State, w: Wake)
    requires Good(s) && Valid(s.board) && GoodSymbols(s.symbols) && s.phase.Playing? && Calm(Handle(s.flags, w.signals))
    requires w.taken.Some? && !HasRoom(s.board, w.taken.value.move)
    ensures var t := Step(s, w);
            && t.sends == [Send(s.current, Error(400, InvalidMove))]
            && t.state == s.(received := true, flags := t.state.flags) && !t.state.flags.timeout
  {
    DropMeaning(s.board, w.taken.value.move, s.symbols[s.current]);
  }

  lemma ServeAccepted(j: Joint, a: Action, move: Int32)
    requires FairInv(j) && Serving(j, a) && j.server.phase.Playing? && Calm(Handle(j.server.flags, a.signals)) && a.taken.Some?
    requires move == WakeOf(j, a).taken.value.move && HasRoom(j.server.board, move)
    ensures FairInv(Next(j, a))
  {
    var s, w, p := j.server, WakeOf(j, a), j.server.current;
    OnlyMove(j, a.taken.value);
    LoudStep(s, w);
    StepValid(s, w);
    var Dropped(b, row) := Drop(s.board, move, s.symbols[p]);
    AcceptForm(s.(received := true, board := b, flags := Handle(s.flags, w.signals)), row, move);
    var j' := Next(j, a);
    assert j'.queues[p] == [] + ToPlayer(Step(s, w).sends, p);
    AcceptSeats(j, j', row, move, ToPlayer(Step(s, w).sends, p), ToPlayer(Step(s, w).sends, Other(p)));
  }

  lemma AcceptSeats(j: Joint, j': Joint, row: nat, move: nat, mine: seq<Message>, theirs: seq<Message>)
    requires FairInv(j) && BoardOk(j') && !j'.server.flags.timeout && j.server.phase.Playing? && j'.clients == j.clients
    requires SameGame(j.server, j'.server)
    requires var p := j.server.current;
             && AcceptCase(j'.server.phase, j'.server.current, p, row, move, mine, theirs)
             && Idle(j.clients[p]) && j.clients[p].cells == j.server.board.cells
             && j'.queues[p] == mine && j'.queues[Other(p)] == j.queues[Other(p)] + theirs
             && j'.server.board.cells == Put(j.server.board.cells, row, move, j.server.symbols[p])
    ensures FairInv(j')
  {
    var p, o := j.server.current, Other(j.server.current);
    assert SeatOf(j, o) && IsClient(j, p) && IsClient(j, o);
    MoverSeat(j.clients[p], j.server.board.cells, Blank(j), row, move);
    OpponentSeat(j.clients[o], j.queues[o], j.server.board.cells, j.server.board.rows, j.server.board.columns, row, move);
    assert SeatOf(j', p) && SeatOf(j', o);
  }

  /** The server takes the winner's request for a rematch. */
  lemma ServeGrants(j: Joint, a: Action)
    requires FairInv(j) && Serving(j, a) && j.server.phase.Deciding? && !Over(Step(j.server, WakeOf(j, a)).state.phase)
    requires var f := Handle(j.server.flags, a.signals); !f.timeout && !f.killed && (a.taken.None? ==> f.happened)
    ensures FairInv(Next(j, a))
  {
    var s, w := j.server, WakeOf(j, a);
    GrantForm(s, w);
    OnlyMove(j, a.taken.value);
    StepValid(s, w);
    ToPlayerNone();
    GrantSeats(j, Next(j, a), w.taken.value);
  }

  lemma GrantForm(s: State, w: Wake)
    requires Good(s) && s.phase.Deciding? && !Over(Step(s, w).state.phase)
    requires var f := Handle(s.flags, w.signals); !f.killed && (w.taken.None? ==> f.happened)
    ensures w.taken.Some? && w.taken.value.restartMatch
    ensures Step(s, w) == Stepped(s.(phase := Ended(s.current), board := Init(s.board.rows, s.board.columns), moves := 0,
                                     flags := Handle(s.flags, w.signals)), [])
  {
  }

  lemma GrantSeats(j: Joint, j': Joint, req: Request)
    requires FairInv(j) && BoardOk(j') && !j'.server.flags.timeout && j.server.phase.Deciding? && j'.clients == j.clients
    requires req.restartMatch && SameGame(j.server, j'.server) && j'.server.current == j.server.current
    requires var p := j.server.current;
             && j.queues[p] == [ClientMove(req)] && j'.queues[p] == [] && j'.queues[Other(p)] == j.queues[Other(p)] + []
             && j'.server.phase == Ended(p) && j'.server.board == Init(j.server.board.rows, j.server.board.columns)
    ensures FairInv(j')
  {
    var p, o := j.server.current, Other(j.server.current);
    assert SeatOf(j, p) && SeatOf(j, o);
    assert j'.queues[o] == j.queues[o];
    assert SeatOf(j', p);
    assert SeatOf(j', o);
  }

  lemma RematchKeeps(j: Joint)
    requires FairInv(j) && (j.server.phase == Ended(0) || j.server.phase == Ended(1))
    ensures FairInv(FairNext(j, Rematches))
  {
    var w, p := j.server.current, Other(j.server.current);
    assert SeatOf(j, w) && SeatOf(j, p);
    var j' := FairNext(j, Rematches);
    OpenerSeat(j.clients[p], j.queues[p], j.server.board.cells, Blank(j));
    assert SeatOf(j', w) && SeatOf(j', p);
  }

  /** The loser starts the next match. */
  lemma OpenerSeat(c: ClientState, q: seq<Message>, board: seq<seq<char>>, blank: seq<seq<char>>)
    requires Idle(c) && Losing(q) && After(c, q) == board
    ensures Seat(Playing, true, c, q + [GameStart(NO_UPDATE)], board, blank)
  {
    AfterSnoc(c, q, GameStart(NO_UPDATE));
    assert (q + [GameStart(NO_UPDATE)])[..|q|] == q;
  }

  lemma FairKeeps(j: Joint, t: Turn)
    requires FairInv(j)
    ensures FairInv(FairNext(j, t))
  {
    match t
    case Serves(signals, taken, late) =>
      if NoAlarm(signals) && NoAlarm(late) && Enabled(j, Wakes(signals, taken, late)) { ServeKeeps(j, Wakes(signals, taken, late)); }
    case Delivers(k, i) =>
      if Enabled(j, Receives(k, i)) && (j.queues[k][i].ClientMove? ==> !Active(j.server)) { DeliverKeeps(j, k, i); }
    case Plays(k, answer) => if Enabled(j, Answers(k, answer)) && !answer.GaveUp? { PlayKeeps(j, k, answer); }
    case Leaves(k) => if !j.clients[k].mode.Left? { LeaveKeeps(j, k); }
    case Rematches => if j.server.phase == Ended(0) || j.server.phase == Ended(1) { RematchKeeps(j); }
  }

  /** The first match of a session: blank replicas and one GAME_START. */
  ghost predicate SessionStart(j: Joint, s: State, first: Player) {
    && WellFormed(j) && Startable(s) && j.server == Begin(s, first).st && j.reference == s.board.cells
    && !s.flags.timeout && j.seen == [false, false]
    && j.queues[first] == [GameStart(NO_UPDATE)] && j.queues[Other(first)] == []
    && j.clients[0].mode.Ready? && j.clients[1].mode.Ready?
    && j.clients[0].cells == Blank(j) && j.clients[1].cells == Blank(j)
  }

  lemma SessionStarts(j: Joint, s: State, first: Player)
    requires SessionStart(j, s, first)
    ensures FairInv(j)
  {
    InitValid(s.board.rows, s.board.columns);
    AfterSnoc(j.clients[first], [], GameStart(NO_UPDATE));
    assert [] + [GameStart(NO_UPDATE)] == [GameStart(NO_UPDATE)];
    assert [GameStart(NO_UPDATE)][..0] == [];
    assert SeatOf(j, first) && SeatOf(j, Other(first));
  }

  lemma {:induction false} FairReachKeeps(j: Joint, turns: seq<Turn>)
    requires FairInv(j)
    ensures FairInv(FairReach(j, turns))
  {
    if turns == [] {
    } else {
      FairReachKeeps(j, turns[..|turns| - 1]);
      FairKeeps(FairReach(j, turns[..|turns| - 1]), turns[|turns| - 1]);
    }
  }
}
