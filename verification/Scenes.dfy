/** Scenes of a session, and the runs that lead from one to the next. */
module Scenes {
  import opened Messages
  import opened Grid
  import opened Match
  import opened MatchSafety
  import opened Replica
  import opened Protocol
  import opened Writes

  // ----- The server's part

  /** Player `p` has dropped `n` discs in column 0, and nobody else any. */
  ghost predicate Piled(s: State, p: Player, n: nat) {
    && Good(s) && GoodSymbols(s.symbols)
    && n <= 3 && Stack(s.board, s.symbols[p], n)
    && s.phase.Playing? && s.moves == n && Calm(s.flags)
  }

  const DROP := Wake([], Some(Request(0, false)), [])
  const SLEEP := Wake([SigAlarm], None, [])
  const GRANT := Wake([], Some(Request(0, true)), [])

  /** Player `p` drops a disc in column 0. */
  lemma DropForm(s: State, p: Player, n: nat)
    requires Piled(s, p, n) && s.current == p && Roomy(s)
    ensures var t, sends := Step(s, DROP).state, Step(s, DROP).sends;
            && SameGame(s, t) && Calm(t.flags) && Announces(sends, p, s.board.rows - n - 1, 0)
            && (n < 3 ==> Piled(t, p, n + 1) && t.current == Other(p) && t.timeouts == s.timeouts[p := 0] && |sends| == 2)
            && (n == 3 ==> t.phase.Deciding? && t.current == p && |sends| == 3 && Win(sends[1].msg) && Lose(sends[2].msg))
  {
    StackGrows(s.board, s.symbols[p], s.symbols[Other(p)], n);
    var Dropped(b, row) := Drop(s.board, 0, s.symbols[p]);
    RoomyStill(s, s.(board := b));
    assert Step(s, DROP) == Accept(s.(received := true, board := b), row, 0);
    AcceptForm(s.(received := true, board := b), p, row, n);
  }

  lemma AcceptForm(s: State, p: Player, row: nat, n: nat)
    requires Good(s) && s.phase.Playing? && s.current == p && s.moves == n <= 3 && Roomy(s)
    requires FourInLine(s.board, s.symbols[p]) <==> n == 3
    ensures var t := Accept(s, row, 0);
            && t.state.board == s.board && Announces(t.sends, p, row, 0)
            && (n < 3 ==> t.state == ToHead(s.(moves := n + 1, timeouts := s.timeouts[p := 0], current := Other(p))) && |t.sends| == 2)
            && (n == 3 ==> t.state.phase.Deciding? && t.state.current == p && t.state.flags == s.flags.(timeout := false) &&
                           |t.sends| == 3 && Win(t.sends[1].msg) && Lose(t.sends[2].msg))
  {
  }

  /** The player to move sleeps through the turn. */
  lemma SleepForm(s: State)
    requires Good(s) && s.phase.Playing? && s.timeouts[s.current] < 3 && Calm(s.flags)
    ensures var o := s.current;
            && Step(s, SLEEP).state == s.(current := Other(o), timeouts := s.timeouts[o := s.timeouts[o] + 1],
                                          flags := s.flags.(ctrlC := false))
            && Step(s, SLEEP).sends == [Send(o, Error(408, TurnLost)), Send(Other(o), GameStart(NO_UPDATE))]
  {
    assert Handle(s.flags, [SigAlarm]) == HandleOne(Handle(s.flags, []), SigAlarm) by {
      assert [SigAlarm][..0] == [];
    }
  }

  // ----- Scenes

  function Landed(row: int): Reply
    requires row >= 0
  {
    Reply(row, 0, false, false, false, true)
  }

  /** The two clients and their queues. */
  datatype Cast = Cast(mine: seq<Message>, theirs: seq<Message>, own: Mode, other: Mode)

  /** What concerns the clients: `p` and the other one. */
  ghost predicate Played(j: Joint, p: Player, c: Cast) {
    && WellFormed(j)
    && j.queues[p] == c.mine && j.queues[Other(p)] == c.theirs
    && j.clients[p].mode == c.own && j.clients[Other(p)].mode == c.other
  }

  /** During the match: `n` discs, `z` turns slept through, and who moves. */
  ghost predicate Scene(j: Joint, p: Player, n: nat, z: nat, mover: Player, c: Cast) {
    Played(j, p, c) && Piled(j.server, p, n) && j.server.timeouts[Other(p)] == z && j.server.current == mover
  }

  /** A client takes the message at position `i`. */
  lemma TakesAt(j: Joint, k: Player, i: nat)
    requires WellFormed(j) && j.clients[k].mode.Ready? && Takes(j.queues[k], -MSG_GAME_START, i)
    ensures var t := AnyNext(j, Acts(Receives(k, i)));
            && t.server == j.server && t.clients == j.clients[k := Take(j.clients[k], j.queues[k][i])]
            && t.queues == j.queues[k := RemoveAt(j.queues[k], i)]
  {
  }

  lemma TakesFirst(q: seq<Message>)
    requires q != [] && forall i :: 1 <= i < |q| ==> q[0].Type() < q[i].Type()
    ensures Takes(q, -MSG_GAME_START, 0) && RemoveAt(q, 0) == q[1..]
  {
  }

  /** Client p takes the first message. */
  lemma OwnTakes(j: Joint, p: Player, c: Cast)
    requires Played(j, p, c) && c.own.Ready? && c.mine != [] && forall i :: 1 <= i < |c.mine| ==> c.mine[0].Type() < c.mine[i].Type()
    ensures var t := AnyNext(j, Acts(Receives(p, 0)));
            && t.server == j.server && t.clients[Other(p)] == j.clients[Other(p)]
            && Played(t, p, c.(mine := c.mine[1..], own := Take(j.clients[p], c.mine[0]).mode))
  {
    TakesFirst(c.mine);
    TakesAt(j, p, 0);
  }

  /** Client o takes the message at position `i`. */
  lemma OtherTakes(j: Joint, p: Player, c: Cast, i: nat)
    requires Played(j, p, c) && c.other.Ready? && Takes(c.theirs, -MSG_GAME_START, i)
    ensures var t := AnyNext(j, Acts(Receives(Other(p), i)));
            && t.server == j.server
            && t.clients[Other(p)] == Take(j.clients[Other(p)], c.theirs[i])
            && Played(t, p, c.(theirs := RemoveAt(c.theirs, i), other := Take(j.clients[Other(p)], c.theirs[i]).mode))
  {
    TakesAt(j, Other(p), i);
  }

  lemma OwnAnswers(j: Joint, p: Player, c: Cast)
    requires Played(j, p, c) && c.own.Asking?
    ensures var t := AnyNext(j, Acts(Answers(p, Column(0))));
            && t.server == j.server && t.clients[Other(p)] == j.clients[Other(p)]
            && Played(t, p, c.(mine := c.mine + [ClientMove(Request(0, false))], own := Ready))
  {
    assert Enabled(j, Answers(p, Column(0)));
  }

  lemma OtherAnswers(j: Joint, p: Player, c: Cast)
    requires Played(j, p, c) && c.other.Asking?
    ensures var t := AnyNext(j, Acts(Answers(Other(p), Column(0))));
            t.server == j.server && Played(t, p, c.(theirs := c.theirs + [ClientMove(Request(0, false))], other := Ready))
  {
    assert Enabled(j, Answers(Other(p), Column(0)));
  }

  lemma OtherGivesUp(j: Joint, p: Player, c: Cast)
    requires Played(j, p, c) && c.other.Asking?
    ensures var t := AnyNext(j, Acts(Answers(Other(p), GaveUp)));
            t.server == j.server && Played(t, p, c.(other := Ready))
  {
    assert Enabled(j, Answers(Other(p), GaveUp));
    assert j.queues[Other(p)] + [] == j.queues[Other(p)];
  }

  /** The server takes the message at position `i` of the queue of the player to move. */
  lemma ServerTakes(j: Joint, i: nat, req: Request)
    requires WellFormed(j) && Active(j.server)
    requires var q := j.queues[j.server.current];
             i < |q| && q[i] == ClientMove(req) && forall n :: 0 <= n < |q| && n != i ==> !q[n].ClientMove?
    ensures var t, s := AnyNext(j, Acts(Wakes([], Some(i), []))), Step(j.server, Wake([], Some(req), []));
            && t.server == s.state && t.clients == j.clients && |t.queues| == 2
            && t.queues[j.server.current] == RemoveAt(j.queues[j.server.current], i) + ToPlayer(s.sends, j.server.current)
            && t.queues[Other(j.server.current)] == j.queues[Other(j.server.current)] + ToPlayer(s.sends, Other(j.server.current))
  {
    var q := j.queues[j.server.current];
    forall n | 0 <= n < |q| && n != i ensures !Eligible(q[n].Type(), MSG_CLIENT_MOVE) {}
    assert Takes(q, MSG_CLIENT_MOVE, i);
    assert WakeOf(j, Wakes([], Some(i), [])) == Wake([], Some(req), []);
  }

  /** The disc of `p` is accepted. */
  lemma Served(j: Joint, p: Player, n: nat, z: nat, row: nat, theirs: seq<Message>, other: Mode)
    requires Scene(j, p, n, z, p, Cast([ClientMove(Request(0, false))], theirs, Ready, other)) && n < 3 && Roomy(j.server)
    requires row == j.server.board.rows - n - 1
    ensures Scene(AnyNext(j, Acts(Wakes([], Some(0), []))), p, n + 1, z, Other(p),
                  Cast([ServerAck(Landed(row))], theirs + [TurnStart(Landed(row))], Ready, other))
  {
    ServerTakes(j, 0, Request(0, false));
    DropForm(j.server, p, n);
    DropLists(j.server, p, n);
    assert RemoveAt(j.queues[p], 0) == [];
    assert [] + [ServerAck(Landed(row))] == [ServerAck(Landed(row))];
  }

  lemma DropLists(s: State, p: Player, n: nat)
    requires Piled(s, p, n) && s.current == p && n < 3 && Roomy(s)
    ensures var sends, row := Step(s, DROP).sends, s.board.rows - n - 1;
            row >= 0 && ToPlayer(sends, p) == [ServerAck(Landed(row))] && ToPlayer(sends, Other(p)) == [TurnStart(Landed(row))]
  {
    DropForm(s, p, n);
    AnnounceLists(Step(s, DROP).sends, p, s.board.rows - n - 1, 0);
  }

  lemma Slept(j: Joint, p: Player, n: nat, z: nat, c: Cast)
    requires Scene(j, p, n, z, Other(p), c) && z < 3
    ensures var t := AnyNext(j, Acts(Wakes([SigAlarm], None, [])));
            t.clients == j.clients && t.server.board == j.server.board &&
            Scene(t, p, n, z + 1, p, c.(mine := c.mine + [GameStart(NO_UPDATE)], theirs := c.theirs + [Error(408, TurnLost)]))
  {
    SleepForm(j.server);
    SleepLists(Other(p));
    assert WakeOf(j, Wakes([SigAlarm], None, [])) == SLEEP;
  }

  lemma SleepLists(o: Player)
    ensures var sends := [Send(o, Error(408, TurnLost)), Send(Other(o), GameStart(NO_UPDATE))];
            ToPlayer(sends, o) == [Error(408, TurnLost)] && ToPlayer(sends, Other(o)) == [GameStart(NO_UPDATE)]
  {
    var a, b := Send(o, Error(408, TurnLost)), Send(Other(o), GameStart(NO_UPDATE));
    ToPlayerShort(a, b, b, o);
    ToPlayerShort(a, b, b, Other(o));
  }

  // ----- Runs

  /** Client p is prompted and moves. */
  function Turns(p: Player): seq<Event> { [Acts(Receives(p, 0)), Acts(Answers(p, Column(0))), Acts(Wakes([], Some(0), []))] }

  const WAITING := Cast([GameStart(NO_UPDATE)], [], Ready, Ready)

  lemma Asked(j: Joint, p: Player, c: Cast)
    requires Played(j, p, c) && c.mine == [GameStart(NO_UPDATE)] && c.own.Ready?
    ensures var t := AnyNext(AnyNext(j, Acts(Receives(p, 0))), Acts(Answers(p, Column(0))));
            && t.server == j.server && t.clients[Other(p)] == j.clients[Other(p)]
            && Played(t, p, c.(mine := [ClientMove(Request(0, false))]))
  {
    OwnTakes(j, p, c);
    OwnAnswers(AnyNext(j, Acts(Receives(p, 0))), p, c.(mine := [], own := Asking));
    assert c.mine[1..] == [] && [] + [ClientMove(Request(0, false))] == [ClientMove(Request(0, false))];
  }

  lemma SceneFrom(j: Joint, t: Joint, p: Player, n: nat, z: nat, mover: Player, c: Cast, d: Cast)
    requires Scene(j, p, n, z, mover, c) && Played(t, p, d) && t.server == j.server
    ensures Scene(t, p, n, z, mover, d)
  {
  }

  lemma AskedScene(j: Joint, p: Player, n: nat, z: nat, theirs: seq<Message>, other: Mode)
    requires Scene(j, p, n, z, p, Cast([GameStart(NO_UPDATE)], theirs, Ready, other))
    ensures var t := AnyNext(AnyNext(j, Acts(Receives(p, 0))), Acts(Answers(p, Column(0))));
            t.server == j.server && Scene(t, p, n, z, p, Cast([ClientMove(Request(0, false))], theirs, Ready, other))
  {
    var c := Cast([GameStart(NO_UPDATE)], theirs, Ready, other);
    Asked(j, p, c);
    SceneFrom(j, AnyNext(AnyNext(j, Acts(Receives(p, 0))), Acts(Answers(p, Column(0)))), p, n, z, p, c,
              Cast([ClientMove(Request(0, false))], theirs, Ready, other));
  }

  lemma Moved(j: Joint, p: Player, n: nat, z: nat, row: nat, theirs: seq<Message>, other: Mode)
    requires Scene(j, p, n, z, p, Cast([GameStart(NO_UPDATE)], theirs, Ready, other)) && n < 3 && Roomy(j.server)
    requires row == j.server.board.rows - n - 1
    ensures Scene(AnyReach(j, Turns(p)), p, n + 1, z, Other(p), Cast([ServerAck(Landed(row))], theirs + [TurnStart(Landed(row))], Ready, other))
  {
    AskedScene(j, p, n, z, theirs, other);
    var u := AnyNext(AnyNext(j, Acts(Receives(p, 0))), Acts(Answers(p, Column(0))));
    Served(u, p, n, z, row, theirs, other);
    Three(j, Acts(Receives(p, 0)), Acts(Answers(p, Column(0))), Acts(Wakes([], Some(0), [])));
  }

  /** The other client takes its TURN_START, its turn runs out, and its player gives up. */
  function Dozes(p: Player): seq<Event> {
    [Acts(Receives(p, 0)), Acts(Receives(Other(p), 0)), Acts(Wakes([SigAlarm], None, []))]
  }

  function GivesUp(p: Player): seq<Event> { [Acts(Answers(Other(p), GaveUp)), Acts(Receives(Other(p), 0))] }

  lemma Dozed(j: Joint, p: Player, n: nat, z: nat, row: nat)
    requires Scene(j, p, n, z, Other(p), Cast([ServerAck(Landed(row))], [TurnStart(Landed(row))], Ready, Ready)) && z < 3
    ensures Scene(AnyReach(j, Dozes(p)), p, n, z + 1, p, Cast([GameStart(NO_UPDATE)], [Error(408, TurnLost)], Ready, Asking))
  {
    var c := Cast([ServerAck(Landed(row))], [TurnStart(Landed(row))], Ready, Ready);
    OwnTakes(j, p, c);
    var t := AnyNext(j, Acts(Receives(p, 0)));
    var d := Cast([], [TurnStart(Landed(row))], Ready, Ready);
    assert Scene(t, p, n, z, Other(p), d) by { assert c.mine[1..] == []; }
    DozedOff(t, p, n, z, row);
    Three(j, Acts(Receives(p, 0)), Acts(Receives(Other(p), 0)), Acts(Wakes([SigAlarm], None, [])));
  }

  lemma DozedOff(j: Joint, p: Player, n: nat, z: nat, row: nat)
    requires Scene(j, p, n, z, Other(p), Cast([], [TurnStart(Landed(row))], Ready, Ready)) && z < 3
    ensures var t := AnyNext(AnyNext(j, Acts(Receives(Other(p), 0))), Acts(Wakes([SigAlarm], None, [])));
            Scene(t, p, n, z + 1, p, Cast([GameStart(NO_UPDATE)], [Error(408, TurnLost)], Ready, Asking))
  {
    var d := Cast([], [TurnStart(Landed(row))], Ready, Ready);
    TakesFirst(d.theirs);
    OtherTakes(j, p, d, 0);
    assert d.theirs[1..] == [];
    Slept(AnyNext(j, Acts(Receives(Other(p), 0))), p, n, z, Cast([], [], Ready, Asking));
    assert [] + [GameStart(NO_UPDATE)] == [GameStart(NO_UPDATE)] && [] + [Error(408, TurnLost)] == [Error(408, TurnLost)];
  }

  lemma GaveUpTurn(j: Joint, p: Player, n: nat, z: nat)
    requires Scene(j, p, n, z, p, Cast([GameStart(NO_UPDATE)], [Error(408, TurnLost)], Ready, Asking))
    ensures Scene(AnyReach(j, GivesUp(p)), p, n, z, p, WAITING)
  {
    var c := Cast([GameStart(NO_UPDATE)], [Error(408, TurnLost)], Ready, Asking);
    OtherGivesUp(j, p, c);
    TakesFirst(c.theirs);
    OtherTakes(AnyNext(j, Acts(Answers(Other(p), GaveUp))), p, c.(other := Ready), 0);
    assert c.theirs[1..] == [];
    Two(j, Acts(Answers(Other(p), GaveUp)), Acts(Receives(Other(p), 0)));
  }

  lemma RowsLeft(s: State, p: Player, n: nat)
    requires Piled(s, p, n)
    ensures s.board.rows - n - 1 >= 0
  {
  }

  function Round(p: Player): seq<Event> { Turns(p) + Dozes(p) + GivesUp(p) }

  lemma RoundPlayed(j: Joint, p: Player, n: nat)
    requires Scene(j, p, n, n, p, WAITING) && n < 3 && Roomy(j.server)
    ensures Scene(AnyReach(j, Round(p)), p, n + 1, n + 1, p, WAITING)
  {
    RowsLeft(j.server, p, n);
    var row := j.server.board.rows - n - 1;
    Moved(j, p, n, n, row, [], Ready);
    var t := AnyReach(j, Turns(p));
    assert [] + [TurnStart(Landed(row))] == [TurnStart(Landed(row))];
    Dozed(t, p, n + 1, n, row);
    GaveUpTurn(AnyReach(t, Dozes(p)), p, n + 1, n + 1);
    AnyMore(j, Turns(p), Dozes(p));
    AnyMore(j, Turns(p) + Dozes(p), GivesUp(p));
  }
}
