/** Two runs in which a match begins and a replica does not agree with its board: a disc
    of the last match is written, or a disc of this one is lost. In both the opener of the
    first match, player `p`, wins with four discs in column 0. */
module StaleRun {
  import opened Messages
  import opened Grid
  import opened Match
  import opened MatchSafety
  import opened Replica
  import opened Agreement
  import opened Protocol
  import opened FairServer
  import opened Writes
  import opened Scenes

  // ----- The end of the match

  /** The match is decided, and the loser has `theirs` and its GAME_END to take. */
  ghost predicate Decided(j: Joint, p: Player, theirs: seq<Message>, other: Mode) {
    && WellFormed(j) && j.server.phase.Deciding? && j.server.current == p && Calm(j.server.flags) && GoodSymbols(j.server.symbols)
    && |j.queues[p]| == 2 && j.queues[p][0].ServerAck? && Win(j.queues[p][1]) && j.clients[p].mode.Ready?
    && |j.queues[Other(p)]| == |theirs| + 1 && j.queues[Other(p)][..|theirs|] == theirs && Lose(j.queues[Other(p)][|theirs|])
    && j.clients[Other(p)].mode == other
  }

  /** The fourth disc. */
  lemma Won(j: Joint, p: Player, z: nat, theirs: seq<Message>, other: Mode)
    requires Scene(j, p, 3, z, p, Cast([GameStart(NO_UPDATE)], theirs, Ready, other)) && Roomy(j.server)
    ensures Decided(AnyReach(j, Turns(p)), p, theirs, other) && SameGame(j.server, AnyReach(j, Turns(p)).server)
  {
    var c := Cast([GameStart(NO_UPDATE)], theirs, Ready, other);
    Three(j, Acts(Receives(p, 0)), Acts(Answers(p, Column(0))), Acts(Wakes([], Some(0), [])));
    Asked(j, p, c);
    WonNow(AnyNext(AnyNext(j, Acts(Receives(p, 0))), Acts(Answers(p, Column(0)))), p, z, theirs, other);
  }

  lemma WonNow(j: Joint, p: Player, z: nat, theirs: seq<Message>, other: Mode)
    requires Scene(j, p, 3, z, p, Cast([ClientMove(Request(0, false))], theirs, Ready, other)) && Roomy(j.server)
    ensures Decided(AnyNext(j, Acts(Wakes([], Some(0), []))), p, theirs, other)
  {
    ServerTakes(j, 0, Request(0, false));
    DropForm(j.server, p, 3);
    AnnounceLists(Step(j.server, DROP).sends, p, j.server.board.rows - 4, 0);
    assert RemoveAt(j.queues[p], 0) == [];
  }

  /** The winner takes both messages and asks for a rematch. */
  function Again(p: Player): seq<Event> { [Acts(Receives(p, 0)), Acts(Receives(p, 0)), Acts(Answers(p, Restart))] }

  /** The server grants it and begins the next match. */
  function Grants(p: Player): seq<Event> { [Acts(Wakes([], Some(0), [])), Begins] }

  /** The next match has begun, and the loser moves. */
  ghost predicate Opened(j: Joint, p: Player, theirs: seq<Message>, d: Message, other: Mode) {
    && WellFormed(j) && j.server.phase.Playing? && j.server.current == Other(p) && Calm(j.server.flags) && GoodSymbols(j.server.symbols)
    && j.server.board == Init(j.server.board.rows, j.server.board.columns) && j.server.moves == 0
    && j.queues[p] == [] && j.queues[Other(p)] == theirs + [d, GameStart(NO_UPDATE)] && Lose(d)
    && j.clients[Other(p)].mode == other
  }

  lemma Requested(j: Joint, p: Player)
    requires WellFormed(j) && j.clients[p].mode.Ready? && |j.queues[p]| == 2 && j.queues[p][0].ServerAck? && Win(j.queues[p][1])
    ensures var t := AnyReach(j, Again(p));
            && WellFormed(t) && t.server == j.server && t.clients[Other(p)] == j.clients[Other(p)]
            && t.queues[Other(p)] == j.queues[Other(p)] && t.queues[p] == [ClientMove(Request(0, true))]
  {
    var c := Cast(j.queues[p], j.queues[Other(p)], Ready, j.clients[Other(p)].mode);
    Confirms(j, p, c);
    var u := AnyNext(AnyNext(j, Acts(Receives(p, 0))), Acts(Receives(p, 0)));
    assert Enabled(u, Answers(p, Restart));
    assert [] + [ClientMove(Request(0, true))] == [ClientMove(Request(0, true))];
    Three(j, Acts(Receives(p, 0)), Acts(Receives(p, 0)), Acts(Answers(p, Restart)));
  }

  lemma Confirms(j: Joint, p: Player, c: Cast)
    requires Played(j, p, c) && c.own.Ready? && |c.mine| == 2 && c.mine[0].ServerAck? && Win(c.mine[1])
    ensures var u := AnyNext(AnyNext(j, Acts(Receives(p, 0))), Acts(Receives(p, 0)));
            && u.server == j.server && u.clients[Other(p)] == j.clients[Other(p)]
            && Played(u, p, c.(mine := [], own := Confirming))
  {
    OwnTakes(j, p, c);
    var d := c.(mine := c.mine[1..]);
    OwnTakes(AnyNext(j, Acts(Receives(p, 0))), p, d);
    assert d.mine[1..] == [];
  }

  lemma Granted(j: Joint, p: Player, theirs: seq<Message>, d: Message, other: Mode)
    requires WellFormed(j) && j.server.phase.Deciding? && j.server.current == p && Calm(j.server.flags) && GoodSymbols(j.server.symbols)
    requires j.queues[p] == [ClientMove(Request(0, true))] && j.queues[Other(p)] == theirs + [d] && Lose(d)
    requires j.clients[Other(p)].mode == other
    ensures Opened(AnyReach(j, Grants(p)), p, theirs, d, other)
  {
    Two(j, Acts(Wakes([], Some(0), [])), Begins);
    GrantedNow(j, p);
    assert theirs + [d] + [GameStart(NO_UPDATE)] == theirs + [d, GameStart(NO_UPDATE)];
  }

  lemma GrantedNow(j: Joint, p: Player)
    requires WellFormed(j) && j.server.phase.Deciding? && j.server.current == p && Calm(j.server.flags)
    requires j.queues[p] == [ClientMove(Request(0, true))]
    ensures var t := AnyNext(j, Acts(Wakes([], Some(0), [])));
            && t.server.phase == Ended(p) && t.server.board == Init(j.server.board.rows, j.server.board.columns) && t.server.moves == 0
            && Calm(t.server.flags) && t.clients == j.clients && t.queues[p] == [] && t.queues[Other(p)] == j.queues[Other(p)]
  {
    ServerTakes(j, 0, Request(0, true));
    assert Step(j.server, GRANT).sends == [] && Step(j.server, GRANT).state.flags == j.server.flags;
    ToPlayerNone();
    assert RemoveAt(j.queues[p], 0) + [] == [] && j.queues[Other(p)] + [] == j.queues[Other(p)];
  }

  function Rematch(p: Player): seq<Event> { Again(p) + Grants(p) }

  lemma Reopened(j: Joint, p: Player, theirs: seq<Message>, other: Mode)
    requires Decided(j, p, theirs, other)
    ensures Opened(AnyReach(j, Rematch(p)), p, theirs, j.queues[Other(p)][|theirs|], other)
  {
    Requested(j, p);
    var d := j.queues[Other(p)][|theirs|];
    assert j.queues[Other(p)] == theirs + [d];
    Granted(AnyReach(j, Again(p)), p, theirs, d, other);
    AnyMore(j, Again(p), Grants(p));
  }

  // ----- The first two rounds

  function TwoRounds(p: Player): seq<Event> { Round(p) + Round(p) }

  lemma Started(j: Joint, s: State, p: Player)
    requires SessionStart(j, s, p) && NoWrap(s.board) && Calm(s.flags)
    ensures Scene(j, p, 0, 0, p, WAITING)
  {
    InitValid(s.board.rows, s.board.columns);
    assert CellsOf(s.board, s.symbols[p]) == {};
  }

  lemma TwoPlayed(j: Joint, s: State, p: Player)
    requires SessionStart(j, s, p) && NoWrap(s.board) && Calm(s.flags)
    ensures Scene(AnyReach(j, TwoRounds(p)), p, 2, 2, p, WAITING) && Roomy(AnyReach(j, TwoRounds(p)).server)
  {
    Started(j, s, p);
    RoomyStart(s.board);
    RoomyStill(s, j.server);
    RoundPlayed(j, p, 0);
    RoomyStill(s, AnyReach(j, Round(p)).server);
    RoundPlayed(AnyReach(j, Round(p)), p, 1);
    AnyMore(j, Round(p), Round(p));
    RoomyStill(s, AnyReach(j, TwoRounds(p)).server);
  }

  // ----- A disc of the last match

  /** In the third round the other client does not take its TURN_START. */
  function Oversleeps(p: Player): seq<Event> { [Acts(Receives(p, 0)), Acts(Wakes([SigAlarm], None, []))] }

  lemma Overslept(j: Joint, p: Player, n: nat, z: nat, row: nat)
    requires Scene(j, p, n, z, Other(p), Cast([ServerAck(Landed(row))], [TurnStart(Landed(row))], Ready, Ready)) && z < 3
    ensures Scene(AnyReach(j, Oversleeps(p)), p, n, z + 1, p,
                  Cast([GameStart(NO_UPDATE)], [TurnStart(Landed(row)), Error(408, TurnLost)], Ready, Ready))
  {
    var c := Cast([ServerAck(Landed(row))], [TurnStart(Landed(row))], Ready, Ready);
    OwnTakes(j, p, c);
    assert c.mine[1..] == [];
    var d := Cast([], [TurnStart(Landed(row))], Ready, Ready);
    Slept(AnyNext(j, Acts(Receives(p, 0))), p, n, z, d);
    assert [] + [GameStart(NO_UPDATE)] == [GameStart(NO_UPDATE)];
    Two(j, Acts(Receives(p, 0)), Acts(Wakes([SigAlarm], None, [])));
  }

  function StalePrefix(p: Player): seq<Event> { TwoRounds(p) + Turns(p) + Oversleeps(p) + Turns(p) + Rematch(p) }

  lemma StaleOpens(j: Joint, s: State, p: Player) returns (d: Message)
    requires SessionStart(j, s, p) && NoWrap(s.board) && Calm(s.flags)
    ensures Opened(AnyReach(j, StalePrefix(p)), p, [TurnStart(Landed(s.board.rows - 3)), Error(408, TurnLost)], d, Ready)
  {
    var row := s.board.rows - 3;
    TwoPlayed(j, s, p);
    var a := AnyReach(j, TwoRounds(p));
    Moved(a, p, 2, 2, row, [], Ready);
    assert [] + [TurnStart(Landed(row))] == [TurnStart(Landed(row))];
    var b := AnyReach(a, Turns(p));
    Overslept(b, p, 3, 2, row);
    RoomyStill(a.server, AnyReach(b, Oversleeps(p)).server);
    d := EndOfStale(AnyReach(b, Oversleeps(p)), p, row);
    Join(j, TwoRounds(p), Turns(p), Oversleeps(p), Turns(p), Rematch(p));
  }

  lemma EndOfStale(j: Joint, p: Player, row: nat) returns (d: Message)
    requires Scene(j, p, 3, 3, p, Cast([GameStart(NO_UPDATE)], [TurnStart(Landed(row)), Error(408, TurnLost)], Ready, Ready)) && Roomy(j.server)
    ensures Opened(AnyReach(AnyReach(j, Turns(p)), Rematch(p)), p, [TurnStart(Landed(row)), Error(408, TurnLost)], d, Ready)
  {
    Won(j, p, 3, [TurnStart(Landed(row)), Error(408, TurnLost)], Ready);
    Reopened(AnyReach(j, Turns(p)), p, [TurnStart(Landed(row)), Error(408, TurnLost)], Ready);
    d := AnyReach(j, Turns(p)).queues[Other(p)][2];
  }

  lemma Join(j: Joint, a: seq<Event>, b: seq<Event>, c: seq<Event>, d: seq<Event>, e: seq<Event>)
    requires WellFormed(j)
    ensures AnyReach(j, a + b + c + d + e) == AnyReach(AnyReach(AnyReach(AnyReach(AnyReach(j, a), b), c), d), e)
  {
    AnyMore(j, a, b);
    AnyMore(j, a + b, c);
    AnyMore(j, a + b + c, d);
    AnyMore(j, a + b + c + d, e);
  }

  /** Error 408, the GAME_END ahead of the TURN_START, and the TURN_START. */
  function WakesUp(p: Player): seq<Event> {
    [Acts(Receives(Other(p), 1)), Acts(Receives(Other(p), 1)), Acts(Receives(Other(p), 0))]
  }

  lemma WokenUp(j: Joint, p: Player, row: nat, d: Message)
    requires Opened(j, p, [TurnStart(Landed(row)), Error(408, TurnLost)], d, Ready) && Rectangle(j.clients[Other(p)].cells, j.server.board.rows, j.server.board.columns)
    ensures var t := AnyReach(j, WakesUp(p));
            && t.server == j.server && t.queues[Other(p)] == [GameStart(NO_UPDATE)]
            && t.clients[Other(p)].cells == Put(Blank(j), row, 0, j.server.symbols[p])
  {
    var o, a, e, g := Other(p), TurnStart(Landed(row)), Error(408, TurnLost), GameStart(NO_UPDATE);
    assert j.queues[o] == [a, e, d, g];
    NoticeTaken(j, o, a, d, g);
    var t := AnyNext(j, Acts(Receives(o, 1)));
    EndTaken(t, o, a, d, g);
    var u := AnyNext(t, Acts(Receives(o, 1)));
    TakesFirst(u.queues[o]);
    TakesAt(u, o, 0);
    assert u.queues[o][1..] == [g] && IsClient(j, o);
    Three(j, Acts(Receives(o, 1)), Acts(Receives(o, 1)), Acts(Receives(o, 0)));
  }

  lemma NoticeTaken(j: Joint, o: Player, a: Message, d: Message, g: Message)
    requires WellFormed(j) && j.clients[o].mode.Ready? && j.queues[o] == [a, Error(408, TurnLost), d, g]
    requires a.TurnStart? && Lose(d) && g.GameStart?
    ensures var t := AnyNext(j, Acts(Receives(o, 1)));
            t.server == j.server && t.clients == j.clients && t.queues[o] == [a, d, g]
  {
    assert Takes(j.queues[o], -MSG_GAME_START, 1);
    TakesAt(j, o, 1);
    assert j.clients[o := j.clients[o]] == j.clients;
  }

  lemma EndTaken(j: Joint, o: Player, a: Message, d: Message, g: Message)
    requires WellFormed(j) && j.clients[o].mode.Ready? && j.queues[o] == [a, d, g] && a.TurnStart? && Lose(d) && g.GameStart?
    requires Rectangle(j.clients[o].cells, j.server.board.rows, j.server.board.columns)
    ensures var t := AnyNext(j, Acts(Receives(o, 1)));
            && t.server == j.server && t.clients[o].mode.Ready? && t.clients[o].cells == Blank(j) && t.queues[o] == [a, g]
  {
    assert Takes(j.queues[o], -MSG_GAME_START, 1);
    TakesAt(j, o, 1);
    WipeIsBlank(Write(j.clients[o].cells, UpdateOf(d, j.clients[o].own, j.clients[o].opponent)), j.server.board.rows, j.server.board.columns);
  }

  lemma StaleReached(j: Joint, s: State, p: Player)
    requires SessionStart(j, s, p) && NoWrap(s.board) && Calm(s.flags)
    ensures var t, blank := AnyReach(j, StalePrefix(p) + WakesUp(p)), BlankCells(s.board.rows, s.board.columns);
            && t.server.phase.Playing? && t.server.board.cells == blank
            && t.queues[Other(p)] == [GameStart(NO_UPDATE)]
            && t.clients[Other(p)].cells == Put(blank, s.board.rows - 3, 0, s.symbols[p])
  {
    StartWrites(j, s, p);
    WritesKeep(j, StalePrefix(p));
    var d := StaleOpens(j, s, p);
    WokenUp(AnyReach(j, StalePrefix(p)), p, s.board.rows - 3, d);
    AnyMore(j, StalePrefix(p), WakesUp(p));
  }

  /** On every board, a disc of the last match: the other client takes its GAME_END ahead
      of a TURN_START, wipes its replica and then takes the TURN_START. The next match has
      begun, its board is blank, and the replica shows a disc on it. */
  lemma StaleTurnStart(j: Joint, s: State, p: Player)
    requires SessionStart(j, s, p) && NoWrap(s.board) && Calm(s.flags)
    ensures var t := AnyReach(j, StalePrefix(p) + WakesUp(p));
            && t.server.phase.Playing? && t.server.board.cells == BlankCells(s.board.rows, s.board.columns)
            && t.queues[Other(p)] == [GameStart(NO_UPDATE)]
            && t.clients[Other(p)].cells == Put(t.server.board.cells, s.board.rows - 3, 0, s.symbols[p]) != t.server.board.cells
  {
    StaleReached(j, s, p);
    Inked(s.board.rows, s.board.columns, s.board.rows - 3, s.symbols[p]);
  }

  lemma Inked(rows: nat, columns: nat, row: nat, x: char)
    requires row < rows && columns > 0 && x != BLANK
    ensures Put(BlankCells(rows, columns), row, 0, x) != BlankCells(rows, columns)
  {
    assert Put(BlankCells(rows, columns), row, 0, x)[row][0] == x;
  }

  // ----- A disc of this match

  /** In the third round the other client is prompted, and answers when its turn is over. */
  function AnswersLate(p: Player): seq<Event> { [Acts(Answers(Other(p), Column(0)))] }

  const LATE := [Error(408, TurnLost), ClientMove(Request(0, false))]

  lemma AnsweredLate(j: Joint, p: Player, n: nat, z: nat)
    requires Scene(j, p, n, z, p, Cast([GameStart(NO_UPDATE)], [Error(408, TurnLost)], Ready, Asking))
    ensures Scene(AnyReach(j, AnswersLate(p)), p, n, z, p, Cast([GameStart(NO_UPDATE)], LATE, Ready, Ready))
  {
    OtherAnswers(j, p, Cast([GameStart(NO_UPDATE)], [Error(408, TurnLost)], Ready, Asking));
    One(j, Acts(Answers(Other(p), Column(0))));
  }

  function LatePrefix(p: Player): seq<Event> { TwoRounds(p) + (Turns(p) + Dozes(p)) + AnswersLate(p) + Turns(p) + Rematch(p) }

  lemma LateOpens(j: Joint, s: State, p: Player) returns (d: Message)
    requires SessionStart(j, s, p) && NoWrap(s.board) && Calm(s.flags)
    ensures Opened(AnyReach(j, LatePrefix(p)), p, LATE, d, Ready)
  {
    var row := s.board.rows - 3;
    TwoPlayed(j, s, p);
    var a := AnyReach(j, TwoRounds(p));
    Moved(a, p, 2, 2, row, [], Ready);
    assert [] + [TurnStart(Landed(row))] == [TurnStart(Landed(row))];
    Dozed(AnyReach(a, Turns(p)), p, 3, 2, row);
    AnyMore(a, Turns(p), Dozes(p));
    var b := AnyReach(a, Turns(p) + Dozes(p));
    AnsweredLate(b, p, 3, 3);
    RoomyStill(a.server, AnyReach(b, AnswersLate(p)).server);
    d := EndOfLate(AnyReach(b, AnswersLate(p)), p);
    Join(j, TwoRounds(p), Turns(p) + Dozes(p), AnswersLate(p), Turns(p), Rematch(p));
  }

  lemma EndOfLate(j: Joint, p: Player) returns (d: Message)
    requires Scene(j, p, 3, 3, p, Cast([GameStart(NO_UPDATE)], LATE, Ready, Ready)) && Roomy(j.server)
    ensures Opened(AnyReach(AnyReach(j, Turns(p)), Rematch(p)), p, LATE, d, Ready)
  {
    Won(j, p, 3, LATE, Ready);
    Reopened(AnyReach(j, Turns(p)), p, LATE, Ready);
    d := AnyReach(j, Turns(p)).queues[Other(p)][2];
  }

  /** The server takes the late answer as the first move of the next match. */
  lemma LateTaken(j: Joint, p: Player, d: Message)
    requires Opened(j, p, LATE, d, Ready) && Roomy(j.server)
    ensures var t, o := AnyNext(j, Acts(Wakes([], Some(1), []))), Other(p);
            && WellFormed(t) && t.server.phase.Playing? && SameGame(j.server, t.server) && t.clients == j.clients
            && t.server.board.cells == Put(Blank(j), j.server.board.rows - 1, 0, j.server.symbols[o])
            && t.queues[o] == [Error(408, TurnLost), d, GameStart(NO_UPDATE), ServerAck(Landed(j.server.board.rows - 1))]
  {
    var s, o := j.server, Other(p);
    InitValid(s.board.rows, s.board.columns);
    assert CellsOf(s.board, s.symbols[o]) == {};
    assert Piled(s, o, 0);
    DropForm(s, o, 0);
    DropLists(s, o, 0);
    DropMeaning(s.board, 0, s.symbols[o]);
    assert j.queues[o] == [Error(408, TurnLost), ClientMove(Request(0, false)), d, GameStart(NO_UPDATE)];
    ServerTakes(j, 1, Request(0, false));
    assert Step(s, DROP).state.board.cells == Put(s.board.cells, s.board.rows - 1, 0, s.symbols[o]) by { DropBoard(s); }
  }

  lemma DropBoard(s: State)
    requires Good(s) && s.phase.Playing? && Calm(s.flags) && s.board == Init(s.board.rows, s.board.columns)
    ensures Step(s, DROP).state.board.cells == Put(s.board.cells, s.board.rows - 1, 0, s.symbols[s.current])
  {
    assert Step(s, DROP) == Move(s, 0);
  }

  /** Error 408, the acknowledgement of that move, and the GAME_END of the match before. */
  function Loses(p: Player): seq<Event> {
    [Acts(Receives(Other(p), 0)), Acts(Receives(Other(p), 2)), Acts(Receives(Other(p), 0))]
  }

  lemma AckTaken(j: Joint, o: Player, d: Message, row: nat)
    requires WellFormed(j) && j.clients[o].mode.Ready? && Lose(d)
    requires j.queues[o] == [Error(408, TurnLost), d, GameStart(NO_UPDATE), ServerAck(Landed(row))]
    ensures var t := AnyNext(AnyNext(j, Acts(Receives(o, 0))), Acts(Receives(o, 2)));
            && t.server == j.server && t.clients[o].mode.Ready? && t.queues[o] == [d, GameStart(NO_UPDATE)]
            && t.clients[o].cells == Put(j.clients[o].cells, row, 0, j.clients[o].own)
  {
    var q := j.queues[o];
    TakesFirst(q);
    TakesAt(j, o, 0);
    var t := AnyNext(j, Acts(Receives(o, 0)));
    assert t.queues[o] == [d, GameStart(NO_UPDATE), ServerAck(Landed(row))];
    assert Takes(t.queues[o], -MSG_GAME_START, 2);
    TakesAt(t, o, 2);
    assert RemoveAt(t.queues[o], 2) == [d, GameStart(NO_UPDATE)];
  }

  lemma Wiped(j: Joint, o: Player, d: Message)
    requires WellFormed(j) && j.clients[o].mode.Ready? && Lose(d) && j.queues[o] == [d, GameStart(NO_UPDATE)]
    requires Rectangle(j.clients[o].cells, j.server.board.rows, j.server.board.columns)
    ensures var t := AnyNext(j, Acts(Receives(o, 0)));
            t.server == j.server && t.queues[o] == [GameStart(NO_UPDATE)] && t.clients[o].cells == Blank(j)
  {
    TakesFirst(j.queues[o]);
    TakesAt(j, o, 0);
    WipeIsBlank(Write(j.clients[o].cells, UpdateOf(d, j.clients[o].own, j.clients[o].opponent)), j.server.board.rows, j.server.board.columns);
    assert j.queues[o][1..] == [GameStart(NO_UPDATE)];
  }

  lemma LostNow(j: Joint, p: Player, d: Message)
    requires var o := Other(p);
             && WellFormed(j) && j.clients[o].mode.Ready? && Lose(d)
             && j.queues[o] == [Error(408, TurnLost), d, GameStart(NO_UPDATE), ServerAck(Landed(j.server.board.rows - 1))]
             && Rectangle(j.clients[o].cells, j.server.board.rows, j.server.board.columns)
    ensures var t, o := AnyReach(j, Loses(p)), Other(p);
            t.server == j.server && t.queues[o] == [GameStart(NO_UPDATE)] && t.clients[o].cells == Blank(j)
  {
    var o := Other(p);
    AckTaken(j, o, d, j.server.board.rows - 1);
    Wiped(AnyNext(AnyNext(j, Acts(Receives(o, 0))), Acts(Receives(o, 2))), o, d);
    Three(j, Acts(Receives(o, 0)), Acts(Receives(o, 2)), Acts(Receives(o, 0)));
  }

  function LostRun(p: Player): seq<Event> { LatePrefix(p) + [Acts(Wakes([], Some(1), []))] + Loses(p) }

  lemma LostReached(j: Joint, s: State, p: Player)
    requires SessionStart(j, s, p) && NoWrap(s.board) && Calm(s.flags)
    ensures var t, o := AnyReach(j, LostRun(p)), Other(p);
            && t.server.phase.Playing? && t.queues[o] == [GameStart(NO_UPDATE)]
            && t.clients[o].cells == BlankCells(s.board.rows, s.board.columns)
            && t.server.board.cells == Put(BlankCells(s.board.rows, s.board.columns), s.board.rows - 1, 0, s.symbols[o])
  {
    StartWrites(j, s, p);
    var d := LateOpens(j, s, p);
    WritesKeep(j, LatePrefix(p));
    RoomyStart(s.board);
    RoomyStill(s, AnyReach(j, LatePrefix(p)).server);
    LostFrom(AnyReach(j, LatePrefix(p)), p, d);
    AnyMore(j, LatePrefix(p), [Acts(Wakes([], Some(1), []))]);
    AnyMore(j, LatePrefix(p) + [Acts(Wakes([], Some(1), []))], Loses(p));
  }

  /** On every board, a disc of this match, without any TURN_START left over: the other
      client answers its prompt too late; after the rematch the server takes that answer
      as its first move, and the client takes the acknowledgement ahead of the GAME_END at
      which it wipes its replica. The board shows the disc, the replica is blank, and
      nothing is pending that would bring it. */
  lemma LostDisc(j: Joint, s: State, p: Player)
    requires SessionStart(j, s, p) && NoWrap(s.board) && Calm(s.flags)
    ensures var t, o := AnyReach(j, LostRun(p)), Other(p);
            && t.server.phase.Playing? && t.queues[o] == [GameStart(NO_UPDATE)]
            && t.clients[o].cells == BlankCells(s.board.rows, s.board.columns)
            && t.server.board.cells == Put(t.clients[o].cells, s.board.rows - 1, 0, s.symbols[o]) != t.clients[o].cells
            && Overlay(t.clients[o].cells, t.queues[o], s.symbols[o], s.symbols[p]) != t.server.board.cells
  {
    LostReached(j, s, p);
    Inked(s.board.rows, s.board.columns, s.board.rows - 1, s.symbols[Other(p)]);
    QuietOverlay(BlankCells(s.board.rows, s.board.columns), s.symbols[Other(p)], s.symbols[p]);
  }

  lemma LostFrom(j: Joint, p: Player, d: Message)
    requires Opened(j, p, LATE, d, Ready) && WritesOk(j) && Roomy(j.server)
    ensures var t, o := AnyReach(AnyReach(j, [Acts(Wakes([], Some(1), []))]), Loses(p)), Other(p);
            && t.server.phase.Playing? && t.queues[o] == [GameStart(NO_UPDATE)] && t.clients[o].cells == Blank(j)
            && t.server.board.cells == Put(Blank(j), j.server.board.rows - 1, 0, j.server.symbols[o])
  {
    LateTaken(j, p, d);
    One(j, Acts(Wakes([], Some(1), [])));
    LostNow(AnyNext(j, Acts(Wakes([], Some(1), []))), p, d);
  }

  lemma QuietOverlay(cells: seq<seq<char>>, own: char, opponent: char)
    ensures Overlay(cells, [GameStart(NO_UPDATE)], own, opponent) == cells
  {
    assert [GameStart(NO_UPDATE)][1..] == [];
  }
}
