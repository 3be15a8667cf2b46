/** Every write of every client stays on its board: any number of matches, any signals,
    timeouts included, any interleaving. */
module Writes {
  import opened Messages
  import opened Grid
  import opened Match
  import opened MatchSafety
  import opened Replica
  import opened Protocol
  import opened FairClients
  import opened FairServer

  datatype Event =
    | Acts(a: Action) // server, client or player act
    | Begins          // the main loop starts the next match

  ghost function AnyNext(j: Joint, e: Event): (j': Joint)
    requires WellFormed(j)
    ensures WellFormed(j') && SameGame(j.server, j'.server)
  {
    match e
    case Acts(a) => Next(j, a)
    case Begins => FairNext(j, Rematches)
  }

  ghost function AnyReach(j: Joint, events: seq<Event>): (j': Joint)
    requires WellFormed(j)
    ensures WellFormed(j') && SameGame(j.server, j'.server)
  {
    if events == [] then j else AnyNext(AnyReach(j, events[..|events| - 1]), events[|events| - 1])
  }

  lemma AnyOne(j: Joint, events: seq<Event>, e: Event)
    requires WellFormed(j)
    ensures AnyReach(j, events + [e]) == AnyNext(AnyReach(j, events), e)
  {
    assert (events + [e])[..|events|] == events;
  }

  lemma {:induction false} AnyMore(j: Joint, a: seq<Event>, b: seq<Event>)
    requires WellFormed(j)
    ensures AnyReach(j, a + b) == AnyReach(AnyReach(j, a), b)
  {
    if b == [] {
      assert a + b == a;
    } else {
      var n := |b| - 1;
      assert a + b == a + b[..n] + [b[n]];
      AnyOne(j, a + b[..n], b[n]);
      AnyMore(j, a, b[..n]);
    }
  }

  lemma One(j: Joint, a: Event)
    requires WellFormed(j)
    ensures AnyReach(j, [a]) == AnyNext(j, a)
  {
    AnyOne(j, [], a);
    assert [] + [a] == [a];
  }

  lemma Two(j: Joint, a: Event, b: Event)
    requires WellFormed(j)
    ensures AnyReach(j, [a, b]) == AnyNext(AnyNext(j, a), b)
  {
    One(j, a);
    AnyOne(j, [a], b);
    assert [a] + [b] == [a, b];
  }

  lemma Three(j: Joint, a: Event, b: Event, c: Event)
    requires WellFormed(j)
    ensures AnyReach(j, [a, b, c]) == AnyNext(AnyNext(AnyNext(j, a), b), c)
  {
    Two(j, a, b);
    Last(j, [a, b], c, [a, b, c]);
  }

  lemma Last(j: Joint, events: seq<Event>, e: Event, all: seq<Event>)
    requires WellFormed(j) && all == events + [e]
    ensures AnyReach(j, all) == AnyNext(AnyReach(j, events), e)
  {
    assert all[..|events|] == events;
  }

  predicate OnBoard(m: Message, rows: nat, columns: nat) {
    var u := UpdateOf(m, 'x', 'o');
    u.Some? ==> 0 <= u.value.row < rows && 0 <= u.value.column < columns
  }

  predicate AllOnBoard(q: seq<Message>, rows: nat, columns: nat) {
    forall i :: 0 <= i < |q| ==> OnBoard(q[i], rows, columns)
  }

  ghost predicate WritesOk(j: Joint) {
    && WellFormed(j) && Valid(j.server.board) && GoodSymbols(j.server.symbols)
    && forall k: Player ::
         && AllOnBoard(j.queues[k], j.server.board.rows, j.server.board.columns)
         && Rectangle(j.clients[k].cells, j.server.board.rows, j.server.board.columns)
  }

  lemma StepOnBoard(s: State, w: Wake, k: Player)
    requires Good(s) && Valid(s.board) && GoodSymbols(s.symbols) && Active(s)
    ensures AllOnBoard(ToPlayer(Step(s, w).sends, k), s.board.rows, s.board.columns)
  {
    var o := Classify(s, w);
    if o.Some? && o.value.Accepted? {
      LoudStep(s, w);
      var move := w.taken.value.move;
      var Dropped(b, row) := Drop(s.board, move, s.symbols[s.current]);
      DropMeaning(s.board, move, s.symbols[s.current]);
      AcceptAnnounces(s.(received := true, board := b, flags := Handle(s.flags, w.signals)), row, move);
      AnnouncedOnBoard(Step(s, w).sends, s.current, row, move, k, s.board.rows, s.board.columns);
    } else {
      QuietStep(s, w);
      QuietToPlayer(Step(s, w).sends, k, 'x', 'o');
    }
  }

  lemma AnnouncedOnBoard(sends: seq<Send>, p: Player, row: nat, move: nat, k: Player, rows: nat, columns: nat)
    requires Announces(sends, p, row, move) && row < rows && move < columns
    ensures AllOnBoard(ToPlayer(sends, k), rows, columns)
  {
    AnnounceLists(sends, p, row, move);
  }

  lemma NextWrites(j: Joint, a: Action)
    requires WritesOk(j)
    ensures WritesOk(Next(j, a))
  {
    if Enabled(j, a) {
      match a
      case Wakes(_, _, _) => WakeWrites(j, a);
      case Receives(k, i) => TakeKeepsShape(j.clients[k], j.queues[k][i], j.server.board.rows, j.server.board.columns);
      case _ =>
    }
  }

  lemma WakeWrites(j: Joint, a: Action)
    requires WritesOk(j) && a.Wakes? && Enabled(j, a)
    ensures WritesOk(Next(j, a))
  {
    StepValid(j.server, WakeOf(j, a));
    forall k: Player ensures AllOnBoard(Next(j, a).queues[k], j.server.board.rows, j.server.board.columns) {
      StepOnBoard(j.server, WakeOf(j, a), k);
      assert AllOnBoard(Remaining(j, a, k), j.server.board.rows, j.server.board.columns);
      assert Next(j, a).queues[k] == Remaining(j, a, k) + ToPlayer(Step(j.server, WakeOf(j, a)).sends, k);
    }
  }

  lemma BeginWrites(j: Joint)
    requires WritesOk(j)
    ensures WritesOk(FairNext(j, Rematches))
  {
  }

  lemma {:induction false} WritesKeep(j: Joint, events: seq<Event>)
    requires WritesOk(j)
    ensures WritesOk(AnyReach(j, events))
  {
    if events == [] {
    } else {
      var t, e := AnyReach(j, events[..|events| - 1]), events[|events| - 1];
      WritesKeep(j, events[..|events| - 1]);
      match e
      case Acts(a) => NextWrites(t, a);
      case Begins => BeginWrites(t);
    }
  }

  /** In every interleaving of a session, whatever is pending for a client, stale or not,
      writes a cell of that client's replica: the calls of `game_set_point_index` meet
      its precondition. */
  lemma {:induction false} WritesStayOnBoard(j: Joint, s: State, first: Player, events: seq<Event>, k: Player, i: nat)
    requires SessionStart(j, s, first) && i < |AnyReach(j, events).queues[k]|
    ensures var t := AnyReach(j, events);
            && Rectangle(t.clients[k].cells, s.board.rows, s.board.columns)
            && OnBoard(t.queues[k][i], s.board.rows, s.board.columns)
  {
    StartWrites(j, s, first);
    WritesKeep(j, events);
  }

  lemma StartWrites(j: Joint, s: State, first: Player)
    requires SessionStart(j, s, first)
    ensures WritesOk(j)
  {
    InitValid(s.board.rows, s.board.columns);
    forall p: Player ensures AllOnBoard(j.queues[p], s.board.rows, s.board.columns) {
      assert p == first || p == Other(first);
    }
  }
}
