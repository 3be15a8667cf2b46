/** The server, two clients and their two queues: every interleaving of one match. */
module Protocol {
  import opened Messages
  import opened Grid
  import opened Match
  import opened MatchSafety
  import opened Replica
  import opened Agreement

  /** `reference` is the board of the match, which the server wipes when it grants a
      rematch; `seen[k]` once client k has taken a GAME_END. */
  datatype Joint = Joint(server: State, reference: seq<seq<char>>, queues: seq<seq<Message>>,
                         clients: seq<ClientState>, seen: seq<bool>)

  datatype Action =
    | Wakes(signals: seq<Signal>, taken: Option<nat>, late: seq<Signal>) // the server's receive returns
    | Receives(k: Player, i: nat)                                        // client k takes message i
    | Answers(k: Player, answer: Answer)                                 // the player of client k reacts
    | Quits(k: Player)                                                   // client k is interrupted

  ghost predicate WellFormed(j: Joint) {
    && Good(j.server)
    && |j.queues| == 2 && |j.clients| == 2 && |j.seen| == 2
    && IsClient(j, 0) && IsClient(j, 1)
  }

  predicate IsClient(j: Joint, k: Player)
    requires |j.clients| == 2 && |j.server.symbols| == 2
  {
    var c := j.clients[k];
    c.own == j.server.symbols[k] && c.opponent == j.server.symbols[Other(k)] && c.columns == j.server.board.columns
  }

  /** The messages for player `k`, in order. */
  function ToPlayer(sends: seq<Send>, k: Player): seq<Message> {
    if sends == [] then []
    else ToPlayer(sends[..|sends| - 1], k) + if sends[|sends| - 1].to == k then [sends[|sends| - 1].msg] else []
  }

  /** The board before the first move. */
  ghost function Blank(j: Joint): seq<seq<char>> { BlankCells(j.server.board.rows, j.server.board.columns) }

  ghost predicate Enabled(j: Joint, a: Action)
    requires WellFormed(j)
  {
    match a
    case Wakes(_, taken, _) =>
      Active(j.server) && (taken.Some? ==> Takes(j.queues[j.server.current], MSG_CLIENT_MOVE, taken.value))
    case Receives(k, i) => j.clients[k].mode.Ready? && Takes(j.queues[k], -MSG_GAME_START, i)
    case Answers(k, Column(c)) => j.clients[k].mode.Asking? && 0 <= c < j.server.board.columns
    case Answers(k, _) => j.clients[k].mode.Asking? || j.clients[k].mode.Confirming?
    case Quits(k) => true
  }

  ghost function WakeOf(j: Joint, a: Action): Wake
    requires WellFormed(j) && a.Wakes? && Enabled(j, a)
  {
    Wake(a.signals, if a.taken.Some? then Some(j.queues[j.server.current][a.taken.value].request) else None, a.late)
  }

  /** The queue of player `k` after the server took what it takes. */
  ghost function Remaining(j: Joint, a: Action, k: Player): seq<Message>
    requires WellFormed(j) && a.Wakes? && Enabled(j, a)
  {
    if k == j.server.current && a.taken.Some? then RemoveAt(j.queues[k], a.taken.value) else j.queues[k]
  }

  ghost function Next(j: Joint, a: Action): (j': Joint)
    requires WellFormed(j)
    ensures WellFormed(j') && SameGame(j.server, j'.server)
  {
    if !Enabled(j, a) then j
    else match a
      case Wakes(_, _, _) =>
        var Stepped(st, sends) := Step(j.server, WakeOf(j, a));
        j.(server := st,
        reference := if Rematch(st) then j.reference else st.board.cells,
        queues := [Remaining(j, a, 0) + ToPlayer(sends, 0), Remaining(j, a, 1) + ToPlayer(sends, 1)])
      case Receives(k, i) =>
        var m := j.queues[k][i];
        j.(clients := j.clients[k := Take(j.clients[k], m)],
        queues := j.queues[k := RemoveAt(j.queues[k], i)],
        seen := j.seen[k := j.seen[k] || m.GameEnd?])
      case Answers(k, answer) =>
        var r := React(j.clients[k], answer);
        j.(clients := j.clients[k := r.state], queues := j.queues[k := j.queues[k] + r.sends])
      case Quits(k) => j.(clients := j.clients[k := j.clients[k].(mode := Left(0))])
  }

  ghost function Reach(j: Joint, actions: seq<Action>): (j': Joint)
    requires WellFormed(j)
    ensures WellFormed(j') && SameGame(j.server, j'.server)
  {
    if actions == [] then j else Next(Reach(j, actions[..|actions| - 1]), actions[|actions| - 1])
  }

  // ----- The invariant

  ghost predicate MovesInRange(q: seq<Message>, columns: nat) {
    forall i :: 0 <= i < |q| && q[i].ClientMove? ==> 0 <= q[i].request.move < columns
  }

  /** Replica agreement for client `k`. */
  ghost predicate Consistent(j: Joint, k: Player)
    requires WellFormed(j)
  {
    Agree(j.reference, j.clients[k].cells, j.queues[k], j.server.symbols[k], j.server.symbols[Other(k)],
          j.server.board.rows, j.server.board.columns)
  }

  ghost predicate BoardOk(j: Joint) {
    && WellFormed(j) && Valid(j.server.board) && GoodSymbols(j.server.symbols)
    && (Rematch(j.server) || j.reference == j.server.board.cells)
  }

  ghost predicate ClientOk(j: Joint, k: Player)
    requires WellFormed(j)
  {
    && (!j.seen[k] ==> Consistent(j, k) && !j.clients[k].mode.Confirming?)
    && MovesInRange(j.queues[k], j.server.board.columns)
  }

  ghost predicate JointInv(j: Joint) { BoardOk(j) && ClientOk(j, 0) && ClientOk(j, 1) }

  // ----- The server's step

  lemma StepValid(s: State, w: Wake)
    requires Good(s) && Valid(s.board) && GoodSymbols(s.symbols)
    ensures Valid(Step(s, w).state.board)
  {
    InitValid(s.board.rows, s.board.columns);
    if w.taken.Some? { DropMeaning(s.board, w.taken.value.move, s.symbols[s.current]); }
  }

  lemma ToPlayerShort(a: Send, b: Send, c: Send, k: Player)
    ensures ToPlayer([], k) == []
    ensures ToPlayer([a], k) == if a.to == k then [a.msg] else []
    ensures ToPlayer([a, b], k) == ToPlayer([a], k) + if b.to == k then [b.msg] else []
    ensures ToPlayer([a, b, c], k) == ToPlayer([a, b], k) + if c.to == k then [c.msg] else []
  {
    assert [a][..0] == [] && [a, b][..1] == [a] && [a, b, c][..2] == [a, b];
  }

  /** Messages that write no cell of a client. */
  predicate AllQuiet(sends: seq<Send>) {
    forall i :: 0 <= i < |sends| ==> sends[i].msg.Error? || sends[i].msg.GameStart?
  }

  /** Every message of a list is quiet for one client. */
  lemma {:induction false} QuietList(board: seq<seq<char>>, replica: seq<seq<char>>, q: seq<Message>, own: char, opponent: char,
                                     rows: nat, columns: nat, ms: seq<Message>)
    requires Agree(board, replica, q, own, opponent, rows, columns)
    requires forall i :: 0 <= i < |ms| ==> UpdateOf(ms[i], own, opponent).None?
    ensures Agree(board, replica, q + ms, own, opponent, rows, columns)
  {
    if ms == [] {
      assert q + ms == q;
    } else {
      var n := |ms| - 1;
      QuietList(board, replica, q, own, opponent, rows, columns, ms[..n]);
      AgreeQuiet(board, replica, q + ms[..n], own, opponent, rows, columns, ms[n]);
      assert q + ms == q + ms[..n] + [ms[n]];
    }
  }

  lemma {:induction false} QuietToPlayer(sends: seq<Send>, k: Player, own: char, opponent: char)
    requires AllQuiet(sends)
    ensures forall i :: 0 <= i < |ToPlayer(sends, k)| ==> UpdateOf(ToPlayer(sends, k)[i], own, opponent).None?
  {
    if sends == [] {
    } else {
      QuietToPlayer(sends[..|sends| - 1], k, own, opponent);
    }
  }

  /** The three lists of messages that an accepted move may send. */
  predicate Announces(sends: seq<Send>, p: Player, row: nat, move: nat) {
    var resp := Reply(row, move, false, false, false, true);
    || sends == [Send(p, ServerAck(resp)), Send(Other(p), TurnStart(resp))]
    || sends == [Send(p, ServerAck(resp)), Send(p, GameEnd(Reply(row, move, true, false, true, false))),
                 Send(Other(p), GameEnd(Reply(row, move, false, false, true, true)))]
    || sends == [Send(p, ServerAck(resp)), Send(p, GameEnd(Reply(row, move, false, true, true, false))),
                 Send(Other(p), GameEnd(Reply(row, move, false, true, true, true)))]
  }

  lemma AcceptAnnounces(s: State, row: nat, move: nat)
    requires Good(s)
    ensures Announces(Accept(s, row, move).sends, s.current, row, move)
  {
  }

  /** What they hold for player `k`: one message that announces the disc, and possibly
      one that writes nothing. */
  lemma AnnounceToPlayer(sends: seq<Send>, p: Player, row: nat, move: nat, k: Player, symbols: seq<char>)
    requires Announces(sends, p, row, move) && |symbols| == 2
    ensures var ms := ToPlayer(sends, k);
            && 1 <= |ms| <= 2
            && UpdateOf(ms[0], symbols[k], symbols[Other(k)]) == Some(Update(row, move, symbols[p]))
            && (|ms| == 2 ==> UpdateOf(ms[1], symbols[k], symbols[Other(k)]).None?)
  {
    var c := if |sends| == 3 then sends[2] else sends[0];
    ToPlayerShort(sends[0], sends[1], c, k);
    assert sends == [sends[0], sends[1]] || sends == [sends[0], sends[1], sends[2]];
  }

  lemma AnnounceLists(sends: seq<Send>, p: Player, row: nat, move: nat)
    requires Announces(sends, p, row, move)
    ensures var mine, theirs := ToPlayer(sends, p), ToPlayer(sends, Other(p));
            && (|sends| == 2 ==> mine == [sends[0].msg] && theirs == [sends[1].msg])
            && (|sends| == 3 ==> mine == [sends[0].msg, sends[1].msg] && theirs == [sends[2].msg])
  {
    var c := if |sends| == 3 then sends[2] else sends[0];
    ToPlayerShort(sends[0], sends[1], c, p);
    ToPlayerShort(sends[0], sends[1], c, Other(p));
    assert sends == if |sends| == 2 then [sends[0], sends[1]] else [sends[0], sends[1], sends[2]];
  }

  /** The board that the clients are to show after the step. */
  ghost function Shown(s: State, w: Wake): seq<seq<char>>
    requires Good(s)
  {
    var t := Step(s, w).state;
    if Rematch(t) then s.board.cells else t.board.cells
  }

  /** A step that leaves the match's board alone sends no updates. */
  lemma QuietStep(s: State, w: Wake)
    requires Good(s) && Valid(s.board) && GoodSymbols(s.symbols) && Active(s)
    ensures var o := Classify(s, w);
            o.None? || !o.value.Accepted? ==> AllQuiet(Step(s, w).sends) && Shown(s, w) == s.board.cells
  {
    if w.taken.Some? { DropMeaning(s.board, w.taken.value.move, s.symbols[s.current]); }
  }

  /** An accepted move is announced to both players. */
  lemma LoudStep(s: State, w: Wake)
    requires Good(s) && Valid(s.board) && GoodSymbols(s.symbols)
    requires var o := Classify(s, w); o.Some? && o.value.Accepted?
    ensures w.taken.Some? && HasRoom(s.board, w.taken.value.move)
    ensures var move := w.taken.value.move;
            var Dropped(b, row) := Drop(s.board, move, s.symbols[s.current]);
            var t := s.(received := true, board := b, flags := Handle(s.flags, w.signals));
            && row >= 0 && Good(t) && s.phase.Playing?
            && Step(s, w) == Accept(t, row, move)
            && s.board.cells[row][move] == BLANK
            && Shown(s, w) == Put(s.board.cells, row, move, s.symbols[s.current])
  {
    DropMeaning(s.board, w.taken.value.move, s.symbols[s.current]);
  }

  lemma SendsAgree(s: State, w: Wake, replica: seq<seq<char>>, q: seq<Message>, k: Player)
    requires Good(s) && Valid(s.board) && GoodSymbols(s.symbols) && Active(s)
    requires Agree(s.board.cells, replica, q, s.symbols[k], s.symbols[Other(k)], s.board.rows, s.board.columns)
    ensures Agree(Shown(s, w), replica, q + ToPlayer(Step(s, w).sends, k), s.symbols[k], s.symbols[Other(k)],
                  s.board.rows, s.board.columns)
  {
    var o := Classify(s, w);
    if o.None? || !o.value.Accepted? {
      QuietStep(s, w);
      QuietToPlayer(Step(s, w).sends, k, s.symbols[k], s.symbols[Other(k)]);
      QuietList(s.board.cells, replica, q, s.symbols[k], s.symbols[Other(k)], s.board.rows, s.board.columns,
                ToPlayer(Step(s, w).sends, k));
    } else {
      LoudStep(s, w);
      var move := w.taken.value.move;
      var Dropped(b, row) := Drop(s.board, move, s.symbols[s.current]);
      AcceptAnnounces(s.(received := true, board := b, flags := Handle(s.flags, w.signals)), row, move);
      LoudAgree(s.board.cells, replica, q, s.current, s.symbols, s.board.rows, s.board.columns, k, Step(s, w).sends, row, move);
    }
  }

  lemma LoudAgree(board: seq<seq<char>>, replica: seq<seq<char>>, q: seq<Message>, p: Player, symbols: seq<char>,
                  rows: nat, columns: nat, k: Player, sends: seq<Send>, row: nat, move: nat)
    requires |symbols| == 2 && Agree(board, replica, q, symbols[k], symbols[Other(k)], rows, columns)
    requires Announces(sends, p, row, move) && symbols[p] != BLANK
    requires row < rows && move < columns && board[row][move] == BLANK
    ensures Agree(Put(board, row, move, symbols[p]), replica, q + ToPlayer(sends, k), symbols[k], symbols[Other(k)], rows, columns)
  {
    var ms := ToPlayer(sends, k);
    AnnounceToPlayer(sends, p, row, move, k, symbols);
    AgreeDrop(board, replica, q, symbols[k], symbols[Other(k)], rows, columns, ms[0]);
    QuietList(Put(board, row, move, symbols[p]), replica, q + [ms[0]], symbols[k], symbols[Other(k)], rows, columns, ms[1..]);
    assert q + ms == q + [ms[0]] + ms[1..];
  }

  lemma {:induction false} ServerSendsNoMoves(sends: seq<Send>, k: Player)
    requires forall i :: 0 <= i < |sends| ==> !sends[i].msg.ClientMove?
    ensures forall i :: 0 <= i < |ToPlayer(sends, k)| ==> !ToPlayer(sends, k)[i].ClientMove?
  {
    if sends == [] {
    } else {
      ServerSendsNoMoves(sends[..|sends| - 1], k);
    }
  }

  lemma ServerMessages(s: State, w: Wake)
    requires Good(s)
    ensures var sends := Step(s, w).sends; forall i :: 0 <= i < |sends| ==> !sends[i].msg.ClientMove?
  {
  }

  // ----- Every action keeps the invariant

  lemma WakeKeeps(j: Joint, a: Action, k: Player)
    requires JointInv(j) && ClientOk(j, k) && a.Wakes? && Enabled(j, a)
    ensures ClientOk(Next(j, a), k)
  {
    var s, w := j.server, WakeOf(j, a);
    var j' := Next(j, a);
    var ms := ToPlayer(Step(s, w).sends, k);
    var q := Remaining(j, a, k);
    assert j'.queues[k] == q + ms && j'.clients == j.clients && j'.seen == j.seen;
    ServerMessages(s, w);
    ServerSendsNoMoves(Step(s, w).sends, k);
    assert MovesInRange(q, s.board.columns);
    if !j.seen[k] {
      RemainingAgrees(j, a, k);
      SendsAgree(s, w, j.clients[k].cells, q, k);
      assert j'.reference == Shown(s, w);
    }
  }

  lemma RemainingAgrees(j: Joint, a: Action, k: Player)
    requires BoardOk(j) && Consistent(j, k) && a.Wakes? && Enabled(j, a)
    ensures Agree(j.reference, j.clients[k].cells, Remaining(j, a, k), j.server.symbols[k], j.server.symbols[Other(k)],
                  j.server.board.rows, j.server.board.columns)
  {
    if k == j.server.current && a.taken.Some? {
      AgreeTake(j.reference, j.clients[k].cells, j.queues[k], j.server.symbols[k], j.server.symbols[Other(k)],
                j.server.board.rows, j.server.board.columns, a.taken.value);
      assert j.queues[k][a.taken.value].ClientMove?;
    }
  }

  lemma ReceiveKeeps(j: Joint, a: Action, k: Player)
    requires JointInv(j) && ClientOk(j, k) && a.Receives? && a.k == k && Enabled(j, a)
    ensures ClientOk(Next(j, a), k)
  {
    assert IsClient(j, k);
    if !j.seen[k] {
      AgreeTake(j.reference, j.clients[k].cells, j.queues[k], j.server.symbols[k], j.server.symbols[Other(k)],
                j.server.board.rows, j.server.board.columns, a.i);
    }
  }

  lemma AnswerKeeps(j: Joint, a: Action, k: Player)
    requires JointInv(j) && ClientOk(j, k) && a.Answers? && a.k == k && Enabled(j, a)
    ensures ClientOk(Next(j, a), k)
  {
    if !j.seen[k] {
      QuietList(j.reference, j.clients[k].cells, j.queues[k], j.server.symbols[k], j.server.symbols[Other(k)],
                j.server.board.rows, j.server.board.columns, React(j.clients[k], a.answer).sends);
    }
  }

  lemma ClientKeeps(j: Joint, a: Action, k: Player)
    requires JointInv(j) && ClientOk(j, k) && !a.Wakes? && Enabled(j, a)
    ensures ClientOk(Next(j, a), k)
  {
    if a.k == k {
      match a
      case Receives(_, _) => ReceiveKeeps(j, a, k);
      case Answers(_, _) => AnswerKeeps(j, a, k);
      case Quits(_) =>
    }
  }

  lemma NextKeeps(j: Joint, a: Action)
    requires JointInv(j)
    ensures JointInv(Next(j, a))
  {
    if Enabled(j, a) {
      if a.Wakes? {
        StepValid(j.server, WakeOf(j, a));
        WakeKeeps(j, a, 0);
        WakeKeeps(j, a, 1);
      } else {
        ClientKeeps(j, a, 0);
        ClientKeeps(j, a, 1);
      }
    }
  }

  lemma {:induction false} ReachKeeps(j: Joint, actions: seq<Action>)
    requires JointInv(j)
    ensures JointInv(Reach(j, actions))
  {
    if actions == [] {
    } else {
      ReachKeeps(j, actions[..|actions| - 1]);
      NextKeeps(Reach(j, actions[..|actions| - 1]), actions[|actions| - 1]);
    }
  }

  // ----- The start of a match

  /** The server starts a match; both replicas are blank, and whatever is left in the
      queues writes no cell. */
  ghost predicate MatchStart(j: Joint, s: State, first: Player) {
    && WellFormed(j) && Startable(s) && j.server == Begin(s, first).st && j.reference == s.board.cells
    && j.seen == [false, false]
    && forall k: Player :: QuietClient(j, k)
  }

  ghost predicate QuietClient(j: Joint, k: Player)
    requires WellFormed(j)
  {
    && j.clients[k].cells == BlankCells(j.server.board.rows, j.server.board.columns)
    && !j.clients[k].mode.Confirming?
    && MovesInRange(j.queues[k], j.server.board.columns)
    && forall i :: 0 <= i < |j.queues[k]| ==> UpdateOf(j.queues[k][i], j.clients[k].own, j.clients[k].opponent).None?
  }

  lemma StartKeeps(j: Joint, s: State, first: Player)
    requires MatchStart(j, s, first)
    ensures JointInv(j)
  {
    InitValid(s.board.rows, s.board.columns);
    forall k: Player ensures ClientOk(j, k) {
      assert QuietClient(j, k) && IsClient(j, k);
      var own, opponent := j.server.symbols[k], j.server.symbols[Other(k)];
      assert Agree(j.reference, j.clients[k].cells, [], own, opponent, s.board.rows, s.board.columns);
      QuietList(j.reference, j.clients[k].cells, [], own, opponent, s.board.rows, s.board.columns, j.queues[k]);
      assert [] + j.queues[k] == j.queues[k];
    }
  }

  // ----- Theorems

  /** Replica agreement. In every interleaving of a match, until a client takes a
      GAME_END its replica overlaid with the updates pending in its queue is the
      board; so a client with nothing pending holds exactly the board. */
  lemma {:induction false} ReplicaAgreement(j: Joint, s: State, first: Player, actions: seq<Action>, k: Player)
    requires MatchStart(j, s, first)
    ensures var t := Reach(j, actions);
            && (!Rematch(t.server) ==> t.reference == t.server.board.cells)
            && (!t.seen[k] ==>
                  && Overlay(t.clients[k].cells, t.queues[k], s.symbols[k], s.symbols[Other(k)]) == t.reference
                  && (t.queues[k] == [] ==> t.clients[k].cells == t.reference))
  {
    StartKeeps(j, s, first);
    ReachKeeps(j, actions);
    var t := Reach(j, actions);
    if !t.seen[k] {
      OverlayAgrees(t.reference, t.clients[k].cells, t.queues[k], s.symbols[k], s.symbols[Other(k)],
                    s.board.rows, s.board.columns);
    }
  }

  /** The order in which the messages are taken does not matter. */
  lemma {:induction false} AgreementInAnyOrder(j: Joint, s: State, first: Player, actions: seq<Action>, k: Player, picks: seq<nat>)
    requires MatchStart(j, s, first)
    requires var t := Reach(j, actions);
             !t.seen[k] && |picks| == |t.queues[k]| && forall i :: 0 <= i < |picks| ==> picks[i] < |t.queues[k]| - i
    ensures var t := Reach(j, actions);
            Drain(t.clients[k].cells, t.queues[k], s.symbols[k], s.symbols[Other(k)], picks) == t.reference
  {
    StartKeeps(j, s, first);
    ReachKeeps(j, actions);
    var t := Reach(j, actions);
    DrainAnyOrder(t.reference, t.clients[k].cells, t.queues[k], s.symbols[k], s.symbols[Other(k)],
                  s.board.rows, s.board.columns, picks);
  }

  /** Every cell a client writes up to and including its GAME_END is on the board and
      was blank on the replica. */
  lemma {:induction false} WritesLandOnBlanks(j: Joint, s: State, first: Player, actions: seq<Action>, k: Player, i: nat)
    requires MatchStart(j, s, first)
    requires var t := Reach(j, actions); !t.seen[k] && i < |t.queues[k]|
    ensures var t := Reach(j, actions);
            var u := UpdateOf(t.queues[k][i], s.symbols[k], s.symbols[Other(k)]);
            u.Some? ==>
              && Rectangle(t.reference, s.board.rows, s.board.columns)
              && 0 <= u.value.row < s.board.rows && 0 <= u.value.column < s.board.columns
              && |t.clients[k].cells| == s.board.rows && |t.clients[k].cells[u.value.row]| == s.board.columns
              && t.clients[k].cells[u.value.row][u.value.column] == BLANK
              && t.reference[u.value.row][u.value.column] == u.value.symbol
  {
    StartKeeps(j, s, first);
    ReachKeeps(j, actions);
    var t := Reach(j, actions);
    AgreeTake(t.reference, t.clients[k].cells, t.queues[k], s.symbols[k], s.symbols[Other(k)],
              s.board.rows, s.board.columns, i);
  }

  /** With these clients a move that reaches the server names a column of the board,
      so error 400 answers exactly the moves whose column is full. */
  lemma RefusedOnlyIfFull(j: Joint, s: State, first: Player, actions: seq<Action>, a: Action)
    requires MatchStart(j, s, first)
    requires var t := Reach(j, actions); a.Wakes? && Enabled(t, a)
    ensures var t := Reach(j, actions);
            var o := Classify(t.server, WakeOf(t, a));
            var taken := WakeOf(t, a).taken;
            && (taken.Some? ==> 0 <= taken.value.move < t.server.board.columns)
            && (o.Some? && (o.value.Rejected? || o.value.Accepted?) ==>
                  (o.value.Rejected? <==> t.server.board.cells[0][taken.value.move] != BLANK))
  {
    StartKeeps(j, s, first);
    ReachKeeps(j, actions);
    WakeInRange(Reach(j, actions), a);
    RefusedIfFull(Reach(j, actions).server, WakeOf(Reach(j, actions), a));
  }

  lemma WakeInRange(j: Joint, a: Action)
    requires JointInv(j) && a.Wakes? && Enabled(j, a)
    ensures var taken := WakeOf(j, a).taken; taken.Some? ==> 0 <= taken.value.move < j.server.board.columns
  {
    var q := j.queues[j.server.current];
    assert ClientOk(j, j.server.current) && MovesInRange(q, j.server.board.columns);
    if a.taken.Some? { assert q[a.taken.value].ClientMove?; }
  }

  lemma RefusedIfFull(s: State, w: Wake)
    requires Good(s) && (w.taken.Some? ==> 0 <= w.taken.value.move < s.board.columns)
    ensures var o := Classify(s, w);
            o.Some? && (o.value.Rejected? || o.value.Accepted?) ==>
              w.taken.Some? && (o.value.Rejected? <==> s.board.cells[0][w.taken.value.move] != BLANK)
  {
  }
}
