/** What pends after a match is decided: one token of the win and the messages of the next
    match behind it; what the server's steps keep of this. */
module Tokens {
  import opened Messages
  import opened Grid
  import opened Match
  import opened MatchSafety
  import opened Session
  import opened Replica
  import opened Protocol
  import opened Writes
  import opened Coherence

  /** The session goes on: a match, the wait for the winner's answer, or a rematch granted. */
  ghost predicate Goes(s: State) { s.phase.Playing? || s.phase.Deciding? || Rematch(s) }

  /** The board of the match that is on; from the win on, that of the match to come. */
  ghost function Reference(j: Joint): (board: seq<seq<char>>)
    requires WellFormed(j)
    ensures Rectangle(board, j.server.board.rows, j.server.board.columns)
  {
    if j.server.phase.Playing? then j.server.board.cells else Blank(j)
  }

  ghost function ViewOf(j: Joint, k: Player): (v: View)
    requires WellFormed(j)
  {
    View(j.server.symbols[k], j.server.symbols[Other(k)], j.server.board.rows, j.server.board.columns)
  }

  // ----- Tokens of a win

  /** A win not yet taken, or a request for a rematch not yet received. */
  predicate Token(m: Message) { (m.GameEnd? && m.reply.winner) || (m.ClientMove? && m.request.restartMatch) }

  predicate NoToken(q: seq<Message>) { forall n :: 0 <= n < |q| ==> !Token(q[n]) }

  predicate OneToken(q: seq<Message>) {
    forall a, b :: 0 <= a < |q| && 0 <= b < |q| && Token(q[a]) && Token(q[b]) ==> a == b
  }

  /** The winner is being asked, or has declined. */
  predicate Asked(c: ClientState) { c.mode.Confirming? || c.mode == Left(-7) }

  /** Only the winner of the decided match has to do with the win, in one way at a time. */
  ghost predicate TokenInv(j: Joint, k: Player)
    requires WellFormed(j)
  {
    var c, q := j.clients[k], j.queues[k];
    && OneToken(q)
    && (Asked(c) ==> NoToken(q))
    && (Asked(c) || !NoToken(q) ==>
          k == j.server.current && (j.server.phase.Deciding? || j.server.phase == Ended(-1) || j.server.phase == Killed))
  }

  // ----- The invariant

  /** While the session goes on, a GAME_END tells a loss, or the present win and nothing
      follows it. */
  predicate EndsOk(q: seq<Message>) {
    forall n :: 0 <= n < |q| && q[n].GameEnd? ==> Lose(q[n]) || (Win(q[n]) && Fresh(q, n + 1))
  }

  predicate NoAcks(q: seq<Message>) { forall n :: 0 <= n < |q| ==> !q[n].ServerAck? }

  ghost predicate TailInv(j: Joint, k: Player)
    requires WellFormed(j)
  {
    var c, q := j.clients[k], j.queues[k];
    && EndsOk(q)
    && (c.mode.Confirming? ==> NoEnd(q) && NoAcks(q))
    && (!NoEnd(q) ==> TailOk(Reference(j), q, ViewOf(j, k)))
  }

  ghost predicate ClientInv(j: Joint, k: Player)
    requires WellFormed(j)
  {
    TokenInv(j, k) && (Goes(j.server) ==> TailInv(j, k))
  }

  ghost predicate BaseInv(j: Joint) {
    && WritesOk(j)
    && Coloured(j.server.board.cells, ViewOf(j, 0))
    && (Rematch(j.server) ==> j.server.phase == Ended(j.server.current) && j.server.board == Init(j.server.board.rows, j.server.board.columns))
  }

  ghost predicate SessionInv(j: Joint) { BaseInv(j) && ClientInv(j, 0) && ClientInv(j, 1) }

  // ----- What the server does

  /** An accepted move: the next turn, or the end of the match. */
  lemma LoudCase(s: State, w: Wake)
    requires Good(s) && Valid(s.board) && GoodSymbols(s.symbols)
    requires var o := Classify(s, w); o.Some? && o.value.Accepted?
    ensures w.taken.Some? && s.phase.Playing?
    ensures var p, t, sends := s.current, Step(s, w).state, Step(s, w).sends;
            var move, row := w.taken.value.move, Drop(s.board, w.taken.value.move, s.symbols[s.current]).row;
            && 0 <= row < s.board.rows && 0 <= move < s.board.columns && s.board.cells[row][move] == BLANK
            && t.board.cells == Put(s.board.cells, row, move, s.symbols[p])
            && LoudSends(t, p, row, move, ToPlayer(sends, p), ToPlayer(sends, Other(p)))
  {
    LoudStep(s, w);
    var move := w.taken.value.move;
    DropMeaning(s.board, move, s.symbols[s.current]);
    var Dropped(b, row) := Drop(s.board, move, s.symbols[s.current]);
    AcceptSendsLoud(s.(received := true, board := b, flags := Handle(s.flags, w.signals)), row, move);
  }

  ghost predicate LoudSends(t: State, p: Player, row: nat, move: nat, mine: seq<Message>, theirs: seq<Message>) {
    var resp := Reply(row, move, false, false, false, true);
    || (t.phase.Playing? && mine == [ServerAck(resp)] && theirs == [TurnStart(resp)])
    || (t.phase.Deciding? && t.current == p && mine == [ServerAck(resp), GameEnd(Reply(row, move, true, false, true, false))]
        && theirs == [GameEnd(Reply(row, move, false, false, true, true))])
    || (t.phase == Ended(-4) && |mine| == 2 && mine[0] == ServerAck(resp) && DrawEnd(mine[1]) && |theirs| == 1 && DrawEnd(theirs[0]))
  }

  lemma AcceptSendsLoud(s: State, row: nat, move: nat)
    requires Good(s) && s.phase.Playing?
    ensures var t := Accept(s, row, move);
            && t.state.board == s.board
            && LoudSends(t.state, s.current, row, move, ToPlayer(t.sends, s.current), ToPlayer(t.sends, Other(s.current)))
  {
    AcceptAnnounces(s, row, move);
    AnnounceLists(Accept(s, row, move).sends, s.current, row, move);
  }

  /** Any other wake-up of a session that goes on. */
  lemma QuietCase(s: State, w: Wake)
    requires Good(s) && Valid(s.board) && GoodSymbols(s.symbols) && Active(s)
    requires var o := Classify(s, w); o.None? || !o.value.Accepted?
    ensures AllQuiet(Step(s, w).sends)
    ensures var t := Step(s, w).state;
            && (Goes(t) && !Rematch(t) ==> t.board == s.board && (t.phase.Playing? <==> s.phase.Playing?))
            && (s.phase.Deciding? ==> t.current == s.current && (Goes(t) || t.phase == Ended(-1) || t.phase == Killed))
            && (Rematch(t) ==>
                  && s.phase.Deciding? && t.phase == Ended(t.current) && w.taken.Some? && w.taken.value.restartMatch
                  && t.board == Init(s.board.rows, s.board.columns))
  {
    QuietStep(s, w);
    QuietPhases(s, w);
  }

  lemma QuietPhases(s: State, w: Wake)
    requires Good(s) && Valid(s.board) && GoodSymbols(s.symbols) && Active(s)
    requires var o := Classify(s, w); o.None? || !o.value.Accepted?
    ensures var t := Step(s, w).state;
            && (Goes(t) && !Rematch(t) ==> t.board == s.board && (t.phase.Playing? <==> s.phase.Playing?))
            && (s.phase.Deciding? ==> t.current == s.current && (Goes(t) || t.phase == Ended(-1) || t.phase == Killed))
            && (Rematch(t) ==>
                  && s.phase.Deciding? && t.phase == Ended(t.current) && w.taken.Some? && w.taken.value.restartMatch
                  && t.board == Init(s.board.rows, s.board.columns))
  {
    if s.phase.Playing? { PlayingEnds(s, w); }
    if w.taken.Some? { DropMeaning(s.board, w.taken.value.move, s.symbols[s.current]); }
  }

  // ----- The server keeps it

  lemma NextColours(j: Joint, a: Action)
    requires BaseInv(j) && a.Wakes? && Enabled(j, a)
    ensures BaseInv(Next(j, a))
  {
    NextWrites(j, a);
    var s, w := j.server, WakeOf(j, a);
    var o := Classify(s, w);
    if o.Some? && o.value.Accepted? {
      LoudCase(s, w);
    } else {
      QuietCase(s, w);
      StepColours(s, w);
    }
  }

  lemma StepColours(s: State, w: Wake)
    requires Good(s) && Valid(s.board) && GoodSymbols(s.symbols) && Active(s)
    requires var o := Classify(s, w); o.None? || !o.value.Accepted?
    ensures var t := Step(s, w).state; t.board == s.board || t.board == Init(s.board.rows, s.board.columns)
  {
    if w.taken.Some? { DropMeaning(s.board, w.taken.value.move, s.symbols[s.current]); }
  }

  /** What the server leaves on the queue from which it takes. */
  lemma RemainingOf(j: Joint, a: Action, k: Player)
    requires WellFormed(j) && a.Wakes? && Enabled(j, a)
    ensures Remaining(j, a, k) == j.queues[k] ||
            (a.taken.Some? && a.taken.value < |j.queues[k]| && j.queues[k][a.taken.value].ClientMove? && k == j.server.current &&
             Remaining(j, a, k) == RemoveAt(j.queues[k], a.taken.value))
  {
  }

  lemma TokensWithout(q: seq<Message>, i: nat)
    requires i < |q|
    requires OneToken(q)
    ensures var rest := RemoveAt(q, i);
            && OneToken(rest)
            && (NoToken(q) || Token(q[i]) ==> NoToken(rest)) && (!NoToken(rest) ==> !NoToken(q))
  {
    var rest := RemoveAt(q, i);
    forall n | 0 <= n < |rest| ensures rest[n] == q[if n < i then n else n + 1] { RemovedAt(q, i, n); }
  }

  predicate Quiet(ms: seq<Message>) { forall n :: 0 <= n < |ms| ==> ms[n].Error? || ms[n].GameStart? }

  lemma {:induction false} QuietHasNone(sends: seq<Send>, k: Player)
    requires AllQuiet(sends)
    ensures Quiet(ToPlayer(sends, k))
  {
    if sends == [] {
    } else {
      var n := |sends| - 1;
      QuietHasNone(sends[..n], k);
      assert sends[n].msg.Error? || sends[n].msg.GameStart?;
    }
  }

  lemma WakeTokens(j: Joint, a: Action, k: Player)
    requires BaseInv(j) && ClientInv(j, k) && a.Wakes? && Enabled(j, a)
    ensures TokenInv(Next(j, a), k)
  {
    var o := Classify(j.server, WakeOf(j, a));
    if o.Some? && o.value.Accepted? { LoudTokens(j, a, k); } else { QuietTokens(j, a, k); }
  }

  lemma LoudTokens(j: Joint, a: Action, k: Player)
    requires BaseInv(j) && ClientInv(j, k) && a.Wakes? && Enabled(j, a)
    requires var o := Classify(j.server, WakeOf(j, a)); o.Some? && o.value.Accepted?
    ensures TokenInv(Next(j, a), k)
  {
    var s, w := j.server, WakeOf(j, a);
    var ms, rest := ToPlayer(Step(s, w).sends, k), Remaining(j, a, k);
    LoudCase(s, w);
    RemainingOf(j, a, k);
    assert NoToken(rest);
    var move, row := w.taken.value.move, Drop(s.board, w.taken.value.move, s.symbols[s.current]).row;
    LoudHasOne(Step(s, w).state, s.current, row, move, Step(s, w).sends, k);
    TokensOnly(rest, ms);
    assert Next(j, a).queues[k] == rest + ms;
  }

  /** An accepted move sends one token if it wins, to the winner, and none otherwise. */
  lemma LoudHasOne(t: State, p: Player, row: nat, move: nat, sends: seq<Send>, k: Player)
    requires LoudSends(t, p, row, move, ToPlayer(sends, p), ToPlayer(sends, Other(p)))
    ensures var ms := ToPlayer(sends, k);
            OneToken(ms) && (!NoToken(ms) ==> k == p == t.current && t.phase.Deciding?)
  {
  }

  lemma TokensOnly(q: seq<Message>, ms: seq<Message>)
    requires NoToken(q) && OneToken(ms)
    ensures OneToken(q + ms) && (NoToken(ms) ==> NoToken(q + ms))
  {
    forall n | 0 <= n < |q + ms| ensures (q + ms)[n] == if n < |q| then q[n] else ms[n - |q|] {}
  }

  lemma QuietTokens(j: Joint, a: Action, k: Player)
    requires BaseInv(j) && ClientInv(j, k) && a.Wakes? && Enabled(j, a)
    requires var o := Classify(j.server, WakeOf(j, a)); o.None? || !o.value.Accepted?
    ensures TokenInv(Next(j, a), k)
  {
    var s, w := j.server, WakeOf(j, a);
    var ms, rest := ToPlayer(Step(s, w).sends, k), Remaining(j, a, k);
    QuietCase(s, w);
    QuietHasNone(Step(s, w).sends, k);
    TokensServed(j, a, k);
    TokensMore(rest, ms);
    assert Next(j, a).queues[k] == rest + ms;
  }

  lemma TokensMore(q: seq<Message>, ms: seq<Message>)
    requires forall n :: 0 <= n < |ms| ==> !Token(ms[n])
    requires OneToken(q)
    ensures OneToken(q + ms)
    ensures NoToken(q + ms) <==> NoToken(q)
  {
    if NoToken(q + ms) {
      forall n | 0 <= n < |q| ensures !Token(q[n]) { assert (q + ms)[n] == q[n]; }
    }
  }

  /** A request that the server grants was the only token. */
  lemma TokensServed(j: Joint, a: Action, k: Player)
    requires BaseInv(j) && ClientInv(j, k) && a.Wakes? && Enabled(j, a)
    requires var o := Classify(j.server, WakeOf(j, a)); o.None? || !o.value.Accepted?
    ensures var t, rest := Step(j.server, WakeOf(j, a)).state, Remaining(j, a, k);
            && OneToken(rest)
            && (Asked(j.clients[k]) ==> NoToken(rest))
            && (Asked(j.clients[k]) || !NoToken(rest) ==>
              k == t.current && (t.phase.Deciding? || t.phase == Ended(-1) || t.phase == Killed))
  {
    var s, w, q := j.server, WakeOf(j, a), j.queues[k];
    QuietCase(s, w);
    RemainingOf(j, a, k);
    if a.taken.Some? && a.taken.value < |q| { TokensWithout(q, a.taken.value); }
  }

  lemma WakeTail(j: Joint, a: Action, k: Player)
    requires BaseInv(j) && ClientInv(j, k) && a.Wakes? && Enabled(j, a) && Goes(Step(j.server, WakeOf(j, a)).state)
    ensures TailInv(Next(j, a), k)
  {
    var s, w := j.server, WakeOf(j, a);
    var o := Classify(s, w);
    RestTail(j, a, k);
    if o.Some? && o.value.Accepted? {
      LoudTail(j, a, k);
    } else {
      QuietTail(j, a, k);
    }
  }

  lemma RestTail(j: Joint, a: Action, k: Player)
    requires WellFormed(j) && GoodSymbols(j.server.symbols) && TailInv(j, k) && a.Wakes? && Enabled(j, a)
    ensures var rest := Remaining(j, a, k);
            && EndsOk(rest) && (NoEnd(j.queues[k]) <==> NoEnd(rest)) && (NoAcks(j.queues[k]) ==> NoAcks(rest))
            && (!NoEnd(rest) ==> TailOk(Reference(j), rest, ViewOf(j, k)))
  {
    var q := j.queues[k];
    RemainingOf(j, a, k);
    if Remaining(j, a, k) != q {
      EndsWithout(q, a.taken.value);
      if !NoEnd(q) { TailWithout(Reference(j), q, ViewOf(j, k), a.taken.value); }
    }
  }

  lemma EndsWithout(q: seq<Message>, i: nat)
    requires EndsOk(q) && i < |q|
    ensures var rest := RemoveAt(q, i);
            && EndsOk(rest) && (!q[i].GameEnd? ==> (NoEnd(q) <==> NoEnd(rest))) && (NoAcks(q) ==> NoAcks(rest))
            && (NoEnd(q) ==> NoEnd(rest))
  {
    var rest := RemoveAt(q, i);
    forall n | 0 <= n < |rest| ensures rest[n] == q[if n < i then n else n + 1] { RemovedAt(q, i, n); }
    forall n | 0 <= n < |rest| && rest[n].GameEnd? ensures Lose(rest[n]) || (Win(rest[n]) && Fresh(rest, n + 1)) {
      assert q[if n < i then n else n + 1] == rest[n];
    }
    if !q[i].GameEnd? && NoEnd(rest) {
      forall m | 0 <= m < |q| ensures !q[m].GameEnd? {
        if m != i { assert rest[if m < i then m else m - 1] == q[m]; }
      }
    }
  }

  lemma EndsMore(q: seq<Message>, m: Message)
    requires EndsOk(q) && !m.GameEnd?
    ensures EndsOk(q + [m]) && (NoEnd(q + [m]) <==> NoEnd(q))
  {
    FreshMore(q, m, 0);
    forall n | 0 <= n < |q + [m]| && (q + [m])[n].GameEnd? ensures Lose((q + [m])[n]) || (Win((q + [m])[n]) && Fresh(q + [m], n + 1)) {
      assert (q + [m])[n] == q[n];
      FreshMore(q, m, n + 1);
    }
  }

  lemma {:induction false} EndsMany(q: seq<Message>, ms: seq<Message>)
    requires EndsOk(q) && Quiet(ms)
    ensures EndsOk(q + ms) && (NoEnd(q + ms) <==> NoEnd(q)) && (NoAcks(q) ==> NoAcks(q + ms))
  {
    if ms == [] {
      assert q + ms == q;
    } else {
      var n := |ms| - 1;
      EndsMany(q, ms[..n]);
      EndsMore(q + ms[..n], ms[n]);
      assert q + ms == q + ms[..n] + [ms[n]];
    }
  }

  lemma {:induction false} TailMany(board: seq<seq<char>>, q: seq<Message>, v: View, ms: seq<Message>)
    requires TailOk(board, q, v) && Quiet(ms)
    ensures TailOk(board, q + ms, v)
  {
    if ms == [] {
      assert q + ms == q;
    } else {
      var n := |ms| - 1;
      TailMany(board, q, v, ms[..n]);
      TailMore(board, q + ms[..n], v, ms[n]);
      assert q + ms == q + ms[..n] + [ms[n]];
    }
  }

  lemma QuietTail(j: Joint, a: Action, k: Player)
    requires BaseInv(j) && ClientInv(j, k) && a.Wakes? && Enabled(j, a) && Goes(Step(j.server, WakeOf(j, a)).state)
    requires var o := Classify(j.server, WakeOf(j, a)); o.None? || !o.value.Accepted?
    requires var rest := Remaining(j, a, k);
             && EndsOk(rest) && (NoEnd(j.queues[k]) <==> NoEnd(rest)) && (NoAcks(j.queues[k]) ==> NoAcks(rest))
             && (!NoEnd(rest) ==> TailOk(Reference(j), rest, ViewOf(j, k)))
    ensures TailInv(Next(j, a), k)
  {
    var s, w, rest := j.server, WakeOf(j, a), Remaining(j, a, k);
    var ms := ToPlayer(Step(s, w).sends, k);
    QuietCase(s, w);
    QuietHasNone(Step(s, w).sends, k);
    EndsMany(rest, ms);
    assert Next(j, a).queues[k] == rest + ms;
    assert Reference(Next(j, a)) == Reference(j) && ViewOf(Next(j, a), k) == ViewOf(j, k);
    if !NoEnd(rest) { TailMany(Reference(j), rest, ViewOf(j, k), ms); }
  }

  lemma LoudTail(j: Joint, a: Action, k: Player)
    requires BaseInv(j) && ClientInv(j, k) && a.Wakes? && Enabled(j, a) && Goes(Step(j.server, WakeOf(j, a)).state)
    requires var o := Classify(j.server, WakeOf(j, a)); o.Some? && o.value.Accepted?
    requires var rest := Remaining(j, a, k); EndsOk(rest) && (!NoEnd(rest) ==> TailOk(Reference(j), rest, ViewOf(j, k)))
    ensures TailInv(Next(j, a), k)
  {
    var s, w := j.server, WakeOf(j, a);
    LoudCase(s, w);
    RestHasNone(j, a, k);
    var row := Drop(s.board, w.taken.value.move, s.symbols[s.current]).row;
    LoudOne(Step(s, w).state, s.current, row, w.taken.value.move, Step(s, w).sends, k, ViewOf(j, k));
    LoudSeat(j, Next(j, a), k, Remaining(j, a, k), ToPlayer(Step(s, w).sends, k), row, w.taken.value.move);
  }

  /** At the head of the loop nobody has to do with a win. */
  lemma RestHasNone(j: Joint, a: Action, k: Player)
    requires WellFormed(j) && TokenInv(j, k) && j.server.phase.Playing? && a.Wakes? && Enabled(j, a)
    ensures NoToken(Remaining(j, a, k)) && !Asked(j.clients[k])
  {
    RemainingOf(j, a, k);
  }

  lemma LoudSeat(j: Joint, j': Joint, k: Player, rest: seq<Message>, ms: seq<Message>, row: nat, move: nat)
    requires BaseInv(j) && WellFormed(j') && j.server.phase.Playing? && SameGame(j.server, j'.server) && Goes(j'.server)
    requires EndsOk(rest) && NoToken(rest) && (!NoEnd(rest) ==> TailOk(j.server.board.cells, rest, ViewOf(j, k)))
    requires j'.queues[k] == rest + ms && j'.clients[k] == j.clients[k] && !j.clients[k].mode.Confirming?
    requires Inside(ViewOf(j, k), row, move) && j.server.board.cells[row][move] == BLANK
    requires LoudPart(j'.server.phase, ms, ViewOf(j, k), row, move, j.server.symbols[j.server.current])
    requires j'.server.board.cells == Put(j.server.board.cells, row, move, j.server.symbols[j.server.current])
    ensures TailInv(j', k)
  {
    LoudQueue(j.server.board.cells, j'.server.phase, rest, ms, ViewOf(j, k), row, move, j.server.symbols[j.server.current]);
    assert ViewOf(j', k) == ViewOf(j, k);
  }

  /** What one player is sent of an accepted move. */
  lemma LoudOne(t: State, p: Player, row: nat, move: nat, sends: seq<Send>, k: Player, v: View)
    requires LoudSends(t, p, row, move, ToPlayer(sends, p), ToPlayer(sends, Other(p)))
    ensures LoudPart(t.phase, ToPlayer(sends, k), v, row, move, if k == p then v.own else v.opponent)
  {
  }

  predicate LoudPart(phase: Phase, ms: seq<Message>, v: View, row: nat, move: nat, x: char) {
    || (phase.Playing? && |ms| == 1 && !ms[0].GameEnd? && Pends(ms[0], v) == Some(Update(row, move, x)))
    || (phase.Deciding? && ((|ms| == 1 && Lose(ms[0])) || (|ms| == 2 && ms[0].ServerAck? && Win(ms[1]))))
    || phase == Ended(-4)
  }

  lemma LoudQueue(board: seq<seq<char>>, phase: Phase, q: seq<Message>, ms: seq<Message>, v: View, row: nat, move: nat, x: char)
    requires EndsOk(q) && NoToken(q) && Sees(v) && (!NoEnd(q) ==> TailOk(board, q, v))
    requires LoudPart(phase, ms, v, row, move, x) && (phase.Playing? || phase.Deciding?)
    requires Rectangle(board, v.rows, v.columns) && Inside(v, row, move) && board[row][move] == BLANK
    ensures EndsOk(q + ms)
    ensures phase.Playing? && !NoEnd(q + ms) ==> TailOk(Put(board, row, move, x), q + ms, v)
    ensures phase.Deciding? ==> !NoEnd(q + ms) && TailOk(BlankCells(v.rows, v.columns), q + ms, v)
  {
    if phase.Playing? {
      EndsMore(q, ms[0]);
      assert ms == [ms[0]];
      if !NoEnd(q) { TailDrop(board, q, v, ms[0], row, move, x); }
    } else {
      LastIsEnd(q, ms, v);
    }
  }

  /** The messages of a win. */
  lemma LastIsEnd(q: seq<Message>, ms: seq<Message>, v: View)
    requires EndsOk(q) && v.opponent != BLANK
    requires (|ms| == 1 && Lose(ms[0])) || (|ms| == 2 && ms[0].ServerAck? && Win(ms[1]))
    requires forall n :: 0 <= n < |q| ==> !Token(q[n])
    ensures EndsOk(q + ms) && !NoEnd(q + ms) && TailOk(BlankCells(v.rows, v.columns), q + ms, v)
  {
    var r := q + ms;
    assert r[|r| - 1] == ms[|ms| - 1];
    TailEnds(r, v);
    assert !NoEnd(r);
    forall n | 0 <= n < |r| && r[n].GameEnd? ensures Lose(r[n]) || (Win(r[n]) && Fresh(r, n + 1)) {
      if n < |q| { assert r[n] == q[n] && !Token(q[n]); }
    }
  }

  lemma WakeInv(j: Joint, a: Action)
    requires SessionInv(j) && a.Wakes? && Enabled(j, a)
    ensures SessionInv(Next(j, a))
  {
    NextColours(j, a);
    forall k: Player ensures ClientInv(Next(j, a), k) {
      WakeTokens(j, a, k);
      if Goes(Next(j, a).server) { WakeTail(j, a, k); }
    }
  }
}
