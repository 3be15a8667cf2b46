/** Message accounting: the messages sent in a run of one match against its outcomes. */
module MatchAccounting {
  import opened Messages
  import opened Grid
  import opened Match
  import opened MatchSafety

  function One(b: bool): nat { if b then 1 else 0 }

  predicate LastIs(r: Run, o: Outcome) { r.history != [] && r.history[|r.history| - 1] == o }

  /** Whether the player to move was handed a turn that has not been used. */
  predicate TurnOpen(r: Run) { r.st.phase.Playing? || LastIs(r, Stopped) }

  /** Whether the match was won. */
  predicate Won(r: Run) { r.st.phase.Deciding? || LastIs(r, Answered) }

  predicate Lost(r: Run, p: Player) { r.st.phase == Ended(-3) && p != r.st.current }

  /** What player `p` was sent for the moves and the turns. */
  predicate TurnAccount(r: Run, p: Player) {
    && Sent(r.log, p, MSG_SERVER_ACK) == Moves(r.history, p)
    && Sent(r.log, p, MSG_GAME_START) + Sent(r.log, p, MSG_TURN_START)
       == Moves(r.history, p) + Timeouts(r.history, p) + One(TurnOpen(r) && r.st.current == p)
    && Sent(r.log, p, 400) == Refusals(r.history, p)
    && Sent(r.log, p, 408) + One(Lost(r, p)) == Timeouts(r.history, p)
  }

  /** What player `p` was sent about the end of the match. */
  ghost predicate EndAccount(r: Run, p: Player) {
    && Sent(r.log, p, 600) == One(Lost(r, p))
    && Sent(r.log, p, 450) == One(r.st.phase == Ended(-3) && p == r.st.current)
    && Sent(r.log, p, MSG_GAME_END) == One(Won(r) || r.st.phase == Ended(-4))
    && Wins(r.log, p) == One(Won(r) && r.st.current == p)
    && (Active(r.st) ==> !LastIs(r, Stopped) && !LastIs(r, Answered))
  }

  ghost predicate Account(r: Run, p: Player) { TurnAccount(r, p) && EndAccount(r, p) }

  function Counts(s: Send, p: Player, tag: int): nat { One(s.to == p && Tag(s.msg) == tag) }

  function CountsWin(s: Send, p: Player): nat { One(s.to == p && TellsWinner(s.msg)) }

  /** The contribution of the at most three messages of one step. */
  lemma SentShort(a: Send, b: Send, c: Send, p: Player, tag: int)
    ensures Sent([], p, tag) == 0 && Wins([], p) == 0
    ensures Sent([a], p, tag) == Counts(a, p, tag) && Wins([a], p) == CountsWin(a, p)
    ensures Sent([a, b], p, tag) == Counts(a, p, tag) + Counts(b, p, tag)
    ensures Wins([a, b], p) == CountsWin(a, p) + CountsWin(b, p)
    ensures Sent([a, b, c], p, tag) == Counts(a, p, tag) + Counts(b, p, tag) + Counts(c, p, tag)
    ensures Wins([a, b, c], p) == CountsWin(a, p) + CountsWin(b, p) + CountsWin(c, p)
  {
    LogSnoc([], a, p, tag);
    LogSnoc([a], b, p, tag);
    LogSnoc([a, b], c, p, tag);
    assert [] + [a] == [a] && [a] + [b] == [a, b] && [a, b] + [c] == [a, b, c];
  }

  /** The log grows by the step's messages, tag by tag. */
  lemma Grow(r: Run, r': Run, sends: seq<Send>, p: Player, tag: int)
    requires r'.log == r.log + sends && |sends| <= 3
    ensures Sent(r'.log, p, tag) == Sent(r.log, p, tag) + Added(sends, p, tag)
    ensures Wins(r'.log, p) == Wins(r.log, p) + AddedWins(sends, p)
  {
    LogAppend(r.log, sends, p, tag);
    var d := Send(0, ServerAck(NO_UPDATE));
    var a := if |sends| > 0 then sends[0] else d;
    var b := if |sends| > 1 then sends[1] else d;
    var c := if |sends| > 2 then sends[2] else d;
    SentShort(a, b, c, p, tag);
    assert sends == if |sends| == 0 then [] else if |sends| == 1 then [a] else if |sends| == 2 then [a, b] else [a, b, c];
  }

  function Added(sends: seq<Send>, p: Player, tag: int): nat
    requires |sends| <= 3
  {
    (if |sends| > 0 then Counts(sends[0], p, tag) else 0) +
    (if |sends| > 1 then Counts(sends[1], p, tag) else 0) +
    (if |sends| > 2 then Counts(sends[2], p, tag) else 0)
  }

  function AddedWins(sends: seq<Send>, p: Player): nat
    requires |sends| <= 3
  {
    (if |sends| > 0 then CountsWin(sends[0], p) else 0) +
    (if |sends| > 1 then CountsWin(sends[1], p) else 0) +
    (if |sends| > 2 then CountsWin(sends[2], p) else 0)
  }

  lemma GrowTurns(r: Run, r': Run, sends: seq<Send>, p: Player)
    requires r'.log == r.log + sends && |sends| <= 3
    ensures Sent(r'.log, p, MSG_SERVER_ACK) == Sent(r.log, p, MSG_SERVER_ACK) + Added(sends, p, MSG_SERVER_ACK)
    ensures Sent(r'.log, p, MSG_GAME_START) == Sent(r.log, p, MSG_GAME_START) + Added(sends, p, MSG_GAME_START)
    ensures Sent(r'.log, p, MSG_TURN_START) == Sent(r.log, p, MSG_TURN_START) + Added(sends, p, MSG_TURN_START)
    ensures Sent(r'.log, p, 400) == Sent(r.log, p, 400) + Added(sends, p, 400)
    ensures Sent(r'.log, p, 408) == Sent(r.log, p, 408) + Added(sends, p, 408)
  {
    Grow(r, r', sends, p, MSG_SERVER_ACK);
    Grow(r, r', sends, p, MSG_GAME_START);
    Grow(r, r', sends, p, MSG_TURN_START);
    Grow(r, r', sends, p, 400);
    Grow(r, r', sends, p, 408);
  }

  lemma GrowEnds(r: Run, r': Run, sends: seq<Send>, p: Player)
    requires r'.log == r.log + sends && |sends| <= 3
    ensures Sent(r'.log, p, MSG_GAME_END) == Sent(r.log, p, MSG_GAME_END) + Added(sends, p, MSG_GAME_END)
    ensures Sent(r'.log, p, 450) == Sent(r.log, p, 450) + Added(sends, p, 450)
    ensures Sent(r'.log, p, 600) == Sent(r.log, p, 600) + Added(sends, p, 600)
    ensures Wins(r'.log, p) == Wins(r.log, p) + AddedWins(sends, p)
  {
    Grow(r, r', sends, p, MSG_GAME_END);
    Grow(r, r', sends, p, 450);
    Grow(r, r', sends, p, 600);
  }

  /** The messages of a timeout, player by player. */
  lemma ExpireSends(s: State, p: Player)
    requires Good(s) && s.phase.Playing?
    ensures var t, sends := Expire(s).state, Expire(s).sends;
            && |sends| <= 3
            && Added(sends, p, MSG_SERVER_ACK) == Added(sends, p, MSG_TURN_START) == Added(sends, p, 400) == 0
            && Added(sends, p, MSG_GAME_START) == One(t.phase.Playing? && p != s.current)
            && Added(sends, p, 408) == One(t.phase.Playing? && p == s.current)
            && t.current == Other(s.current) && (t.phase.Playing? || t.phase == Ended(-3))
  {
  }

  /** The state once the disc is on the board. */
  ghost function Landed(s: State, move: Int32): (t: State)
    requires Good(s)
    ensures Good(t)
  {
    s.(received := true, board := Drop(s.board, move, s.symbols[s.current]).board)
  }

  /** The messages of an accepted move, player by player. */
  lemma AcceptSends(s: State, row: nat, move: nat, p: Player)
    requires Good(s) && s.phase.Playing?
    ensures var t, sends := Accept(s, row, move).state, Accept(s, row, move).sends;
            && |sends| <= 3
            && Added(sends, p, MSG_GAME_START) == Added(sends, p, 400) == Added(sends, p, 408) == 0
            && Added(sends, p, MSG_SERVER_ACK) == One(p == s.current)
            && Added(sends, p, MSG_TURN_START) == One(t.phase.Playing? && p != s.current)
            && (t.phase.Playing? ==> t.current == Other(s.current)) && t.phase != Ended(-3)
  {
  }

  lemma AcceptEnds(s: State, row: nat, move: nat, p: Player)
    requires Good(s) && s.phase.Playing?
    ensures var t, sends := Accept(s, row, move).state, Accept(s, row, move).sends;
            && |sends| <= 3
            && Added(sends, p, 450) == Added(sends, p, 600) == 0
            && Added(sends, p, MSG_GAME_END) == One(!t.phase.Playing?)
            && AddedWins(sends, p) == One(t.phase.Deciding? && p == s.current)
            && (t.phase.Deciding? ==> t.current == s.current)
            && (t.phase.Playing? || t.phase.Deciding? || t.phase == Ended(-4))
  {
  }

  /** How the accounts of the turns follow from what one step added. */
  lemma TurnGrow(r: Run, r': Run, sends: seq<Send>, o: Outcome, p: Player)
    requires TurnAccount(r, p) && r.st.phase.Playing? && r'.log == r.log + sends && |sends| <= 3
    requires r'.history == r.history + [o] && (o.Expired? || o.Accepted?) && o.player == r.st.current
    requires Added(sends, p, MSG_SERVER_ACK) == One(o.Accepted? && p == o.player)
    requires Added(sends, p, MSG_GAME_START) + Added(sends, p, MSG_TURN_START) == One(r'.st.phase.Playing? && p != o.player)
    requires Added(sends, p, 400) == 0
    requires Added(sends, p, 408) + One(Lost(r', p)) == One(o.Expired? && p == o.player)
    requires r'.st.phase.Playing? ==> r'.st.current == Other(o.player)
    ensures TurnAccount(r', p)
  {
    HistorySnoc(r.history, o, p);
    assert LastIs(r', o);
    GrowTurns(r, r', sends, p);
  }

  lemma TurnExpire(r: Run, r': Run, s: State, p: Player)
    requires Good(r.st) && Good(s) && s == r.st.(flags := s.flags) && Account(r, p)
    requires r.st.phase.Playing? && r'.st == Expire(s).state && r'.log == r.log + Expire(s).sends
    requires r'.history == r.history + [Expired(s.current)]
    ensures TurnAccount(r', p)
  {
    ExpireSends(s, p);
    TurnGrow(r, r', Expire(s).sends, Expired(s.current), p);
  }

  lemma EndExpire(r: Run, r': Run, s: State, p: Player)
    requires Good(r.st) && Good(s) && s == r.st.(flags := s.flags) && Account(r, p)
    requires r.st.phase.Playing? && r'.st == Expire(s).state && r'.log == r.log + Expire(s).sends
    requires r'.history == r.history + [Expired(s.current)]
    ensures EndAccount(r', p)
  {
    HistorySnoc(r.history, Expired(s.current), p);
    assert LastIs(r', Expired(s.current));
    GrowEnds(r, r', Expire(s).sends, p);
  }

  lemma TurnReject(r: Run, r': Run, s: State, move: Int32, p: Player)
    requires Good(r.st) && Good(s) && s == r.st.(flags := s.flags) && Account(r, p)
    requires r.st.phase.Playing? && r'.st == Move(s, move).state && r'.log == r.log + Move(s, move).sends
    requires r'.history == r.history + [Rejected(s.current)]
    requires Drop(s.board, move, s.symbols[s.current]).row < 0
    ensures TurnAccount(r', p)
  {
    HistorySnoc(r.history, Rejected(s.current), p);
    assert LastIs(r', Rejected(s.current));
    GrowTurns(r, r', Move(s, move).sends, p);
  }

  lemma EndReject(r: Run, r': Run, s: State, move: Int32, p: Player)
    requires Good(r.st) && Good(s) && s == r.st.(flags := s.flags) && Account(r, p)
    requires r.st.phase.Playing? && r'.st == Move(s, move).state && r'.log == r.log + Move(s, move).sends
    requires r'.history == r.history + [Rejected(s.current)]
    requires Drop(s.board, move, s.symbols[s.current]).row < 0
    ensures EndAccount(r', p)
  {
    HistorySnoc(r.history, Rejected(s.current), p);
    assert LastIs(r', Rejected(s.current));
    GrowEnds(r, r', Move(s, move).sends, p);
  }

  lemma TurnAccept(r: Run, r': Run, s: State, move: Int32, row: int, p: Player)
    requires Good(r.st) && Good(s) && s == r.st.(flags := s.flags) && Account(r, p)
    requires r.st.phase.Playing? && r'.st == Move(s, move).state && r'.log == r.log + Move(s, move).sends
    requires r'.history == r.history + [Accepted(s.current, row, move)]
    requires Drop(s.board, move, s.symbols[s.current]).row >= 0
    ensures TurnAccount(r', p)
  {
    AcceptSends(Landed(s, move), Drop(s.board, move, s.symbols[s.current]).row, move, p);
    TurnGrow(r, r', Move(s, move).sends, Accepted(s.current, row, move), p);
  }

  lemma EndAccept(r: Run, r': Run, s: State, move: Int32, row: int, p: Player)
    requires Good(r.st) && Good(s) && s == r.st.(flags := s.flags) && Account(r, p)
    requires r.st.phase.Playing? && r'.st == Move(s, move).state && r'.log == r.log + Move(s, move).sends
    requires r'.history == r.history + [Accepted(s.current, row, move)]
    requires Drop(s.board, move, s.symbols[s.current]).row >= 0
    ensures EndAccount(r', p)
  {
    AcceptEnds(Landed(s, move), Drop(s.board, move, s.symbols[s.current]).row, move, p);
    assert LastIs(r', Accepted(s.current, row, move));
    GrowEnds(r, r', Move(s, move).sends, p);
  }

  lemma TurnAnswer(r: Run, r': Run, s: State, taken: Option<Request>, p: Player)
    requires Good(r.st) && Good(s) && s == r.st.(flags := s.flags) && Account(r, p)
    requires r.st.phase.Deciding? && r'.st == Decide(s, taken).state && r'.log == r.log + Decide(s, taken).sends
    requires r'.history == r.history + [Answered]
    ensures TurnAccount(r', p)
  {
    HistorySnoc(r.history, Answered, p);
    assert LastIs(r', Answered);
    GrowTurns(r, r', Decide(s, taken).sends, p);
  }

  lemma EndAnswer(r: Run, r': Run, s: State, taken: Option<Request>, p: Player)
    requires Good(r.st) && Good(s) && s == r.st.(flags := s.flags) && Account(r, p)
    requires r.st.phase.Deciding? && r'.st == Decide(s, taken).state && r'.log == r.log + Decide(s, taken).sends
    requires r'.history == r.history + [Answered]
    ensures EndAccount(r', p)
  {
    HistorySnoc(r.history, Answered, p);
    assert LastIs(r', Answered);
    GrowEnds(r, r', Decide(s, taken).sends, p);
  }

  /** A disconnection sends at most one error 601 and passes no turn. */
  lemma StopForm(s: State, late: seq<Signal>)
    requires Good(s) && s.phase.Playing?
    ensures Stops(s, Disconnect(s, late).state, Disconnect(s, late).sends)
  {
  }

  ghost predicate Stops(s: State, t: State, sends: seq<Send>) {
    && t.current == s.current && t.phase in {Ended(-1), Ended(-2), Killed}
    && (sends == [] || (|sends| == 1 && sends[0].msg.Error? && sends[0].msg.code == 601))
  }

  lemma TurnStop(r: Run, r': Run, sends: seq<Send>, p: Player)
    requires Good(r.st) && Good(r'.st) && TurnAccount(r, p) && r.st.phase.Playing? && Stops(r.st, r'.st, sends)
    requires r'.log == r.log + sends && r'.history == r.history + [Stopped]
    ensures TurnAccount(r', p)
  {
    HistorySnoc(r.history, Stopped, p);
    assert LastIs(r', Stopped);
    GrowTurns(r, r', sends, p);
  }

  lemma EndStop(r: Run, r': Run, sends: seq<Send>, p: Player)
    requires Good(r.st) && Good(r'.st) && EndAccount(r, p) && r.st.phase.Playing? && Stops(r.st, r'.st, sends)
    requires r'.log == r.log + sends && r'.history == r.history + [Stopped]
    ensures EndAccount(r', p)
  {
    assert LastIs(r', Stopped);
    GrowEnds(r, r', sends, p);
  }

  lemma AccountKilled(r: Run, r': Run, p: Player)
    requires Good(r.st) && Account(r, p) && Active(r.st) && Good(r'.st)
    requires r'.st == r.st.(phase := Killed, flags := r'.st.flags) && r'.log == r.log
    requires r'.history == r.history + [if r.st.phase.Deciding? then Answered else Stopped]
    ensures Account(r', p)
  {
    var o := if r.st.phase.Deciding? then Answered else Stopped;
    HistorySnoc(r.history, o, p);
    assert LastIs(r', o);
  }

  lemma AccountNothing(r: Run, r': Run, p: Player)
    requires Good(r.st) && Account(r, p) && Good(r'.st)
    requires r'.st == r.st.(flags := r'.st.flags) && r'.log == r.log && r'.history == r.history
    ensures Account(r', p)
  {
  }

  lemma AccountQuiet(r: Run, w: Wake, p: Player)
    requires Inv(r) && Account(r, p)
    requires Classify(r.st, w).None? || Handle(r.st.flags, w.signals).killed
    ensures Account(RunStep(r, w), p)
  {
    var r' := RunStep(r, w);
    assert r'.log == r.log;
    if Classify(r.st, w).None? { AccountNothing(r, r', p); } else { AccountKilled(r, r', p); }
  }

  lemma AccountMove(r: Run, w: Wake, p: Player)
    requires Inv(r) && Account(r, p) && !Handle(r.st.flags, w.signals).killed
    requires Classify(r.st, w).Some? && (Classify(r.st, w).value.Accepted? || Classify(r.st, w).value.Rejected?)
    ensures Account(RunStep(r, w), p)
  {
    var r' := RunStep(r, w);
    var s := r.st.(flags := Handle(r.st.flags, w.signals));
    var move := w.taken.value.move;
    DropMeaning(s.board, move, s.symbols[s.current]);
    match Classify(r.st, w)
    case Some(Rejected(_)) =>
      TurnReject(r, r', s, move, p);
      EndReject(r, r', s, move, p);
    case Some(Accepted(_, row, _)) =>
      TurnAccept(r, r', s, move, row, p);
      EndAccept(r, r', s, move, row, p);
  }

  lemma AccountStep(r: Run, w: Wake, p: Player)
    requires Inv(r) && Account(r, p)
    ensures Account(RunStep(r, w), p)
  {
    if Classify(r.st, w).None? || Handle(r.st.flags, w.signals).killed {
      AccountQuiet(r, w, p);
      return;
    }
    var r' := RunStep(r, w);
    var s := r.st.(flags := Handle(r.st.flags, w.signals));
    match Classify(r.st, w)
    case Some(Answered) =>
      TurnAnswer(r, r', s, w.taken, p);
      EndAnswer(r, r', s, w.taken, p);
    case Some(Stopped) =>
      StopForm(s, w.late);
      TurnStop(r, r', Disconnect(s, w.late).sends, p);
      EndStop(r, r', Disconnect(s, w.late).sends, p);
    case Some(Expired(_)) =>
      TurnExpire(r, r', s, p);
      EndExpire(r, r', s, p);
    case Some(_) => AccountMove(r, w, p);
  }

  /** In every run of a match: one acknowledgement per accepted move, one start
      message per turn handed over, error 400 per refused move, error 408 per timeout
      that does not end the match; a won or drawn match sends exactly one GAME_END to
      each player, with the winner flag to the winner alone; a forfeit sends error 600
      to the loser and error 450 to the opponent. */
  lemma {:induction false} MessageAccounting(s: State, first: Player, ws: seq<Wake>, p: Player)
    requires Startable(s)
    ensures Account(Play(Begin(s, first), ws), p)
  {
    if ws == [] {
      var r := Begin(s, first);
      var q := Send(first, GameStart(NO_UPDATE));
      SentShort(q, q, q, p, MSG_GAME_START);
      SentShort(q, q, q, p, MSG_TURN_START);
      SentShort(q, q, q, p, MSG_SERVER_ACK);
      SentShort(q, q, q, p, MSG_GAME_END);
      SentShort(q, q, q, p, 400);
      SentShort(q, q, q, p, 408);
      SentShort(q, q, q, p, 450);
      SentShort(q, q, q, p, 600);
    } else {
      EveryRun(s, first, ws[..|ws| - 1]);
      MessageAccounting(s, first, ws[..|ws| - 1], p);
      AccountStep(Play(Begin(s, first), ws[..|ws| - 1]), ws[|ws| - 1], p);
    }
  }

  /** The two messages of a forfeit, in order, and what the winner is told: a victory
      if the server had received any move in the match, accepted or not. */
  lemma {:induction false} ForfeitMessages(s: State, first: Player, ws: seq<Wake>, w: Wake)
    requires Startable(s)
    ensures var r := Play(Begin(s, first), ws);
            var t := Step(r.st, w);
            var h := r.history;
            t.state.phase == Ended(-3) && r.st.phase.Playing? ==>
              t.sends == [Send(r.st.current, Error(600, LostByInactivity)),
                          Send(Other(r.st.current), Error(450,
                               if Moves(h, 0) + Moves(h, 1) + Refusals(h, 0) + Refusals(h, 1) > 0
                               then WonByForfeit else EndedByInactivity))]
              && Kills(r.st, w) == [Kill(Other(r.st.current), SigAlarm), Kill(r.st.current, SigAlarm)]
  {
    EveryRun(s, first, ws);
    var t := Play(Begin(s, first), ws).st;
    if t.phase.Playing? && Step(t, w).state.phase == Ended(-3) { OnlyExpiryForfeits(t, w); }
  }

  lemma OnlyExpiryForfeits(s: State, w: Wake)
    requires Good(s) && s.phase.Playing? && Step(s, w).state.phase == Ended(-3)
    ensures Step(s, w).sends == [Send(s.current, Error(600, LostByInactivity)),
                                 Send(Other(s.current), Error(450, if s.received then WonByForfeit else EndedByInactivity))]
    ensures Kills(s, w) == [Kill(Other(s.current), SigAlarm), Kill(s.current, SigAlarm)]
  {
  }

  // ----- Signals

  /** How often `p` was sent the signal. */
  function Signalled(kills: seq<Kill>, p: Player, signal: Signal): nat {
    if kills == [] then 0
    else Signalled(kills[..|kills| - 1], p, signal) + One(kills[|kills| - 1] == Kill(p, signal))
  }

  lemma SignalledMore(kills: seq<Kill>, a: Kill, b: Kill, p: Player, signal: Signal)
    ensures Signalled(kills + [], p, signal) == Signalled(kills, p, signal)
    ensures Signalled(kills + [a], p, signal) == Signalled(kills, p, signal) + One(a == Kill(p, signal))
    ensures Signalled(kills + [a, b], p, signal)
            == Signalled(kills, p, signal) + One(a == Kill(p, signal)) + One(b == Kill(p, signal))
  {
    assert kills + [] == kills && (kills + [a])[..|kills|] == kills;
    assert (kills + [a, b])[..|kills| + 1] == kills + [a];
  }

  /** What player `p` was signalled. */
  ghost predicate SignalAccount(r: Run, p: Player) {
    && Signalled(r.kills, p, SigAlarm) == Timeouts(r.history, p) + One(r.st.phase == Ended(-3) && p == r.st.current)
    && Signalled(r.kills, p, SigUsr1) == One(r.st.phase == Killed)
    && (Active(r.st) ==> !r.st.flags.killed)
  }

  /** The signals of a wake-up to player `p`, against its outcome and where it leads. */
  ghost predicate KillCase(t: State, o: Option<Outcome>, kills: seq<Kill>, p: Player) {
    && |kills| <= 2
    && AddedSignals(kills, p, SigAlarm)
       == One(o.Some? && o.value.Expired? && o.value.player == p) + One(t.phase == Ended(-3) && p == t.current)
    && AddedSignals(kills, p, SigUsr1) == One(t.phase == Killed)
    && (Active(t) ==> !t.flags.killed)
  }

  lemma KillForm(s: State, w: Wake, p: Player)
    requires Good(s) && Active(s) && !s.flags.killed
    ensures KillCase(Step(s, w).state, Classify(s, w), Kills(s, w), p)
  {
    var f := Handle(s.flags, w.signals);
    if !f.killed && s.phase.Playing? && !f.happened && !f.timeout && w.taken.Some? {
      MoveNeverKills(s.(flags := f), w.taken.value.move);
    }
  }

  lemma MoveNeverKills(s: State, move: Int32)
    requires Good(s) && s.phase.Playing?
    ensures var t := Move(s, move).state; t.phase != Killed && t.phase != Ended(-3) && t.flags.killed == s.flags.killed
  {
  }

  lemma SignalStep(r: Run, w: Wake, p: Player)
    requires Good(r.st) && SignalAccount(r, p) && Active(r.st)
    ensures SignalAccount(RunStep(r, w), p)
  {
    KillForm(r.st, w, p);
    SignalsAdd(r, RunStep(r, w), Classify(r.st, w), Kills(r.st, w), p);
  }

  lemma SignalsAdd(r: Run, r': Run, o: Option<Outcome>, kills: seq<Kill>, p: Player)
    requires SignalAccount(r, p) && Active(r.st) && r.st.phase != Ended(-3) && KillCase(r'.st, o, kills, p)
    requires r'.kills == r.kills + kills && r'.history == if o.None? then r.history else r.history + [o.value]
    ensures SignalAccount(r', p)
  {
    KillsGrow(r.kills, kills, p, SigAlarm);
    KillsGrow(r.kills, kills, p, SigUsr1);
    TimeoutsGrow(r.history, o, p);
  }

  function AddedSignals(kills: seq<Kill>, p: Player, signal: Signal): nat
    requires |kills| <= 2
  {
    (if |kills| > 0 then One(kills[0] == Kill(p, signal)) else 0) +
    (if |kills| > 1 then One(kills[1] == Kill(p, signal)) else 0)
  }

  lemma KillsGrow(past: seq<Kill>, kills: seq<Kill>, p: Player, signal: Signal)
    requires |kills| <= 2
    ensures Signalled(past + kills, p, signal) == Signalled(past, p, signal) + AddedSignals(kills, p, signal)
  {
    var a := if |kills| > 0 then kills[0] else TAKE_DOWN[0];
    var b := if |kills| > 1 then kills[1] else TAKE_DOWN[1];
    assert kills == if |kills| == 0 then [] else if |kills| == 1 then [a] else [a, b];
    SignalledMore(past, a, b, p, signal);
  }

  lemma TimeoutsGrow(h: seq<Outcome>, o: Option<Outcome>, p: Player)
    ensures Timeouts(if o.None? then h else h + [o.value], p)
            == Timeouts(h, p) + One(o.Some? && o.value.Expired? && o.value.player == p)
  {
    if o.Some? { HistorySnoc(h, o.value, p); }
  }

  /** In every run of a match: one alarm to a player per timeout of that player, and one
      more to the opponent of a player who forfeits; SIGUSR1 to both players, once, if
      and only if a repeated SIGINT ended the server. */
  lemma {:induction false} SignalAccounting(s: State, first: Player, ws: seq<Wake>, p: Player)
    requires Good(s) && !s.flags.killed
    ensures SignalAccount(Play(Begin(s, first), ws), p)
  {
    if ws == [] {
    } else {
      var r, w := Play(Begin(s, first), ws[..|ws| - 1]), ws[|ws| - 1];
      SignalAccounting(s, first, ws[..|ws| - 1], p);
      if Active(r.st) {
        SignalStep(r, w, p);
      } else {
        assert RunStep(r, w) == r by { assert r.log + [] == r.log && r.kills + [] == r.kills; }
      }
    }
  }
}
