/** What every run of one match keeps, and what follows from it. */
module MatchSafety {
  import opened Messages
  import opened Grid
  import opened Match

  // ----- Counting outcomes and messages

  /** Accepted moves of player `p`. */
  function Moves(h: seq<Outcome>, p: Player): nat {
    if h == [] then 0
    else Moves(h[..|h| - 1], p) + if h[|h| - 1].Accepted? && h[|h| - 1].player == p then 1 else 0
  }

  function Refusals(h: seq<Outcome>, p: Player): nat {
    if h == [] then 0
    else Refusals(h[..|h| - 1], p) + if h[|h| - 1].Rejected? && h[|h| - 1].player == p then 1 else 0
  }

  function Timeouts(h: seq<Outcome>, p: Player): nat {
    if h == [] then 0
    else Timeouts(h[..|h| - 1], p) + if h[|h| - 1].Expired? && h[|h| - 1].player == p then 1 else 0
  }

  /** Timeouts of `p` since the last accepted move of `p`, or since the start. */
  function Streak(h: seq<Outcome>, p: Player): nat {
    if h == [] then 0
    else
      var last := h[|h| - 1];
      if last.Accepted? && last.player == p then 0
      else Streak(h[..|h| - 1], p) + if last.Expired? && last.player == p then 1 else 0
  }

  /** Error codes and message types, which do not overlap. */
  function Tag(m: Message): int { if m.Error? then m.code else m.Type() }

  /** Messages with tag `tag` sent to `p`. */
  function Sent(log: seq<Send>, p: Player, tag: int): nat {
    if log == [] then 0
    else Sent(log[..|log| - 1], p, tag) + if log[|log| - 1].to == p && Tag(log[|log| - 1].msg) == tag then 1 else 0
  }

  predicate TellsWinner(m: Message) { m.GameEnd? && m.reply.winner }

  /** GAME_END messages with the winner flag sent to `p`. */
  function Wins(log: seq<Send>, p: Player): nat {
    if log == [] then 0
    else Wins(log[..|log| - 1], p) + if log[|log| - 1].to == p && TellsWinner(log[|log| - 1].msg) then 1 else 0
  }

  lemma HistorySnoc(h: seq<Outcome>, o: Outcome, p: Player)
    ensures Moves(h + [o], p) == Moves(h, p) + if o.Accepted? && o.player == p then 1 else 0
    ensures Refusals(h + [o], p) == Refusals(h, p) + if o.Rejected? && o.player == p then 1 else 0
    ensures Timeouts(h + [o], p) == Timeouts(h, p) + if o.Expired? && o.player == p then 1 else 0
    ensures Streak(h + [o], p) == if o.Accepted? && o.player == p then 0
                                  else Streak(h, p) + if o.Expired? && o.player == p then 1 else 0
  {
    assert (h + [o])[..|h|] == h;
  }

  lemma LogSnoc(log: seq<Send>, s: Send, p: Player, tag: int)
    ensures Sent(log + [s], p, tag) == Sent(log, p, tag) + if s.to == p && Tag(s.msg) == tag then 1 else 0
    ensures Wins(log + [s], p) == Wins(log, p) + if s.to == p && TellsWinner(s.msg) then 1 else 0
  {
    assert (log + [s])[..|log|] == log;
  }

  lemma {:induction false} LogAppend(log: seq<Send>, sends: seq<Send>, p: Player, tag: int)
    ensures Sent(log + sends, p, tag) == Sent(log, p, tag) + Sent(sends, p, tag)
    ensures Wins(log + sends, p) == Wins(log, p) + Wins(sends, p)
  {
    if sends == [] {
      assert log + sends == log;
    } else {
      var n := |sends| - 1;
      LogAppend(log, sends[..n], p, tag);
      LogSnoc(log + sends[..n], sends[n], p, tag);
      assert log + sends == log + sends[..n] + [sends[n]];
    }
  }

  // ----- The invariant

  /** The symbols differ and neither is the blank. The argument parser checks neither. */
  predicate GoodSymbols(symbols: seq<char>) {
    |symbols| == 2 && symbols[0] != symbols[1] && symbols[0] != BLANK && symbols[1] != BLANK
  }

  /** The number of cells fits the 32 bits in which the server computes it. */
  predicate NoWrap(b: Board) { b.rows * b.columns < TWO32 }

  /** The test for the last move does not fire on the first four. */
  predicate Roomy(s: State) { MaxMoves(s.board) > 4 }

  lemma RoomyStart(b: Board)
    requires GoodSize(b.rows, b.columns) && NoWrap(b)
    ensures MaxMoves(b) > 4
  {
    FourByFour(b.rows, b.columns);
    Small(b.rows * b.columns);
  }

  lemma FourByFour(rows: nat, columns: nat)
    requires rows >= 4 && columns >= 4
    ensures rows * columns >= 16
  {
  }

  lemma Small(cells: nat)
    requires 16 <= cells < TWO32
    ensures cells % TWO32 > 4
  {
  }

  lemma RoomyStill(s: State, t: State)
    requires Roomy(s) && SameGame(s, t)
    ensures Roomy(t)
  {
  }

  ghost predicate NoLine(s: State)
    requires Good(s)
  {
    !FourInLine(s.board, s.symbols[0]) && !FourInLine(s.board, s.symbols[1])
  }

  /** A rematch has been granted, so the board is already the next match's. */
  predicate Rematch(s: State) { s.phase.Ended? && s.phase.status >= 0 }

  /** The board, the counters kept beside it, and the phase agree. */
  ghost predicate BoardInv(r: Run)
    requires Good(r.st)
  {
    var s := r.st;
    && Valid(s.board)
    && GoodSymbols(s.symbols)
    && (s.phase.Playing? ==>
          && s.moves == Filled(s.board)
          && NoLine(s)
          && (NoWrap(s.board) ==> s.moves < s.board.rows * s.board.columns))
    && (s.phase.Deciding? ==>
          && s.moves + 1 == Filled(s.board)
          && FourInLine(s.board, s.symbols[s.current])
          && !FourInLine(s.board, s.symbols[Other(s.current)]))
    && (Rematch(s) ==> s.board == Init(s.board.rows, s.board.columns) && s.moves == 0)
    && (NoWrap(s.board) ==> (s.phase == Ended(-4) <==> Full(s.board) && NoLine(s)))
  }

  /** The accepted moves of the history are the discs on the board. */
  ghost predicate DiscInv(r: Run)
    requires Good(r.st)
  {
    var s, h := r.st, r.history;
    !Rematch(s) ==>
      && Moves(h, 0) == |CellsOf(s.board, s.symbols[0])|
      && Moves(h, 1) == |CellsOf(s.board, s.symbols[1])|
      && Moves(h, 0) + Moves(h, 1) == Filled(s.board)
  }

  /** The history, the timeout counters and the turn agree. */
  ghost predicate TurnInv(r: Run)
    requires Good(r.st)
  {
    var s, h := r.st, r.history;
    var f, g := r.first, Other(r.first);
    && (s.phase.Playing? ==>
          && s.timeouts[0] == Streak(h, 0) <= MAX_TIMEOUT_MATCH
          && s.timeouts[1] == Streak(h, 1) <= MAX_TIMEOUT_MATCH
          && Moves(h, f) + Timeouts(h, f) == Moves(h, g) + Timeouts(h, g) + (if s.current == f then 0 else 1)
          && (s.received <==> Moves(h, 0) + Moves(h, 1) + Refusals(h, 0) + Refusals(h, 1) > 0))
    && (s.phase == Ended(-3) <==> h != [] && h[|h| - 1].Expired? && Streak(h, h[|h| - 1].player) > MAX_TIMEOUT_MATCH)
    && (s.phase == Ended(-3) ==> h[|h| - 1].player == Other(s.current))
  }

  /** Bounds on the length of the match. */
  ghost predicate BoundInv(r: Run)
    requires Good(r.st)
  {
    var h, cells := r.history, r.st.board.rows * r.st.board.columns;
    && Moves(h, 0) + Moves(h, 1) <= cells
    && Timeouts(h, 0) <= 3 * Moves(h, 0) + Streak(h, 0)
    && Timeouts(h, 1) <= 3 * Moves(h, 1) + Streak(h, 1)
    && (NoWrap(r.st.board) ==> Timeouts(h, 0) + Timeouts(h, 1) <= 3 * cells + 4)
  }

  ghost predicate Inv(r: Run) {
    Good(r.st) && BoardInv(r) && DiscInv(r) && TurnInv(r) && BoundInv(r)
  }

  // ----- Each kind of wake-up keeps it

  ghost predicate Active(s: State) { s.phase.Playing? || s.phase.Deciding? }

  lemma KeepsStop(r: Run, r': Run)
    requires Inv(r) && Good(r'.st) && r.st.phase.Playing? && r'.st.board == r.st.board && r'.st.symbols == r.st.symbols
    requires r'.st.phase in {Ended(-1), Ended(-2), Killed}
    requires r'.first == r.first && r'.history == r.history + [Stopped]
    ensures Inv(r')
  {
    HistorySnoc(r.history, Stopped, 0);
    HistorySnoc(r.history, Stopped, 1);
    CounterAgreement(r.st.board);
  }

  lemma KeepsAnswer(r: Run, r': Run, taken: Option<Request>, s: State)
    requires Inv(r) && r.st.phase.Deciding? && Good(s) && s == r.st.(flags := s.flags)
    requires r'.st == Decide(s, taken).state || r'.st == s.(phase := Killed)
    requires r'.first == r.first && r'.history == r.history + [Answered]
    ensures Inv(r')
  {
    HistorySnoc(r.history, Answered, 0);
    HistorySnoc(r.history, Answered, 1);
    InitValid(r.st.board.rows, r.st.board.columns);
    var b := Init(r.st.board.rows, r.st.board.columns);
    assert b.cells[0][0] == BLANK;
  }

  lemma KeepsNothing(r: Run, r': Run)
    requires Inv(r) && r' == r.(st := r.st.(flags := r'.st.flags), log := r'.log, kills := r'.kills) && Good(r'.st)
    ensures Inv(r')
  {
  }

  lemma KeepsExpire(r: Run, r': Run, s: State)
    requires Inv(r) && r.st.phase.Playing? && Good(s) && s == r.st.(flags := s.flags)
    requires r'.st == Expire(s).state && r'.first == r.first && r'.history == r.history + [Expired(s.current)]
    ensures Inv(r')
  {
    ExpireBoard(r, r', s);
    ExpireTurn(r, r', s);
    HistorySnoc(r.history, Expired(s.current), 0);
    HistorySnoc(r.history, Expired(s.current), 1);
  }

  lemma ExpireBoard(r: Run, r': Run, s: State)
    requires Inv(r) && r.st.phase.Playing? && Good(s) && s == r.st.(flags := s.flags)
    requires r'.st == Expire(s).state && r'.first == r.first && r'.history == r.history + [Expired(s.current)]
    ensures BoardInv(r')
  {
    assert !(Full(s.board) && NoWrap(s.board)) by { CounterAgreement(s.board); }
  }

  lemma ExpireTurn(r: Run, r': Run, s: State)
    requires Inv(r) && r.st.phase.Playing? && Good(s) && s == r.st.(flags := s.flags)
    requires r'.st == Expire(s).state && r'.first == r.first && r'.history == r.history + [Expired(s.current)]
    ensures TurnInv(r')
  {
    ExpireForm(s);
    LostTurnOf(r, r');
  }

  /** What a timeout does to the turn. */
  lemma ExpireForm(s: State)
    requires Good(s) && s.phase.Playing?
    ensures var t, p := Expire(s).state, s.current;
            && t.current == Other(p)
            && t.timeouts == s.timeouts[p := s.timeouts[p] + 1] && t.received == s.received
            && t.phase == if s.timeouts[p] + 1 > MAX_TIMEOUT_MATCH then Ended(-3) else Playing
  {
  }

  lemma LostTurnOf(r: Run, r': Run)
    requires Good(r.st) && Good(r'.st) && TurnInv(r) && r.st.phase.Playing? && r'.first == r.first
    requires r'.history == r.history + [Expired(r.st.current)]
    requires var p := r.st.current;
             && r'.st.current == Other(p) && r'.st.received == r.st.received
             && r'.st.timeouts == r.st.timeouts[p := r.st.timeouts[p] + 1]
             && r'.st.phase == if r.st.timeouts[p] + 1 > MAX_TIMEOUT_MATCH then Ended(-3) else Playing
    ensures TurnInv(r')
  {
    var o := Expired(r.st.current);
    HistorySnoc(r.history, o, 0);
    HistorySnoc(r.history, o, 1);
    assert r'.history[|r'.history| - 1] == o;
  }

  lemma KeepsReject(r: Run, r': Run, s: State, move: Int32)
    requires Inv(r) && r.st.phase.Playing? && Good(s) && s == r.st.(flags := s.flags) && !HasRoom(s.board, move)
    requires r'.st == Move(s, move).state && r'.first == r.first && r'.history == r.history + [Rejected(s.current)]
    ensures Inv(r')
  {
    HistorySnoc(r.history, Rejected(s.current), 0);
    HistorySnoc(r.history, Rejected(s.current), 1);
    DropMeaning(s.board, move, s.symbols[s.current]);
  }

  lemma KeepsAccept(r: Run, r': Run, s: State, move: Int32)
    requires Inv(r) && r.st.phase.Playing? && Good(s) && s == r.st.(flags := s.flags) && HasRoom(s.board, move)
    requires r'.st == Move(s, move).state && r'.first == r.first
    requires r'.history == r.history + [Accepted(s.current, s.board.rowsIndex[move] as int - 1, move)]
    ensures Inv(r')
  {
    AcceptBoard(r, r', s, move);
    AcceptDiscs(r, r', s, move);
    AcceptTurn(r, r', s, move);
    AcceptBound(r, r', s, move);
  }

  /** What an accepted move does to the board, without its cells. */
  lemma AcceptFacts(s: State, move: Int32)
    requires Good(s) && GoodSymbols(s.symbols) && Valid(s.board) && NoLine(s) && HasRoom(s.board, move)
    ensures var p := s.current;
            var Dropped(b, row) := Drop(s.board, move, s.symbols[p]);
            && row >= 0 && Valid(b) && b.rows == s.board.rows && b.columns == s.board.columns
            && row == s.board.rowsIndex[move] - 1
            && Filled(b) == Filled(s.board) + 1 <= b.rows * b.columns
            && (Full(b) <==> Filled(b) == b.rows * b.columns)
            && !FourInLine(b, s.symbols[Other(p)])
            && LinesThrough(b, s.symbols[p], row, move)
            && |CellsOf(b, s.symbols[p])| == |CellsOf(s.board, s.symbols[p])| + 1
            && |CellsOf(b, s.symbols[Other(p)])| == |CellsOf(s.board, s.symbols[Other(p)])|
  {
    var p := s.current;
    DropMeaning(s.board, move, s.symbols[p]);
    DropCounts(s.board, move, s.symbols[p], s.symbols[Other(p)]);
    NewLinesPassThrough(s.board, move, s.symbols[p], s.symbols[Other(p)]);
    CounterAgreement(Drop(s.board, move, s.symbols[p]).board);
  }

  /** The three ways an accepted move continues. */
  lemma MoveCases(s: State, move: Int32)
    requires Good(s) && s.phase.Playing? && Drop(s.board, move, s.symbols[s.current]).row >= 0
    ensures var b, t := Drop(s.board, move, s.symbols[s.current]).board, Move(s, move).state;
            && t.board == b && t.symbols == s.symbols && (t.phase.Playing? || t.current == s.current)
            && t.phase == (if FourInLine(b, s.symbols[s.current]) then Deciding
                           else if s.moves + 1 == MaxMoves(b) then Ended(-4) else Playing)
            && t.moves == (if t.phase.Deciding? then s.moves else s.moves + 1)
            && (t.phase.Playing? ==>
                  t.received && t.current == Other(s.current) && t.timeouts == s.timeouts[s.current := 0])
  {
  }

  lemma AcceptBoard(r: Run, r': Run, s: State, move: Int32)
    requires Inv(r) && r.st.phase.Playing? && Good(s) && s == r.st.(flags := s.flags) && HasRoom(s.board, move)
    requires r'.st == Move(s, move).state
    ensures BoardInv(r')
  {
    AcceptFacts(s, move);
    MoveCases(s, move);
    BoardOf(s, r', Drop(s.board, move, s.symbols[s.current]).board);
  }

  lemma BoardOf(s: State, r': Run, b: Board)
    requires Good(s) && GoodSymbols(s.symbols) && Good(r'.st) && r'.st.board == b && r'.st.symbols == s.symbols
    requires r'.st.phase.Playing? || r'.st.current == s.current
    requires r'.st.phase == (if FourInLine(b, s.symbols[s.current]) then Deciding
                             else if s.moves + 1 == MaxMoves(b) then Ended(-4) else Playing)
    requires r'.st.moves == if r'.st.phase.Deciding? then s.moves else s.moves + 1
    requires Valid(b) && s.moves + 1 == Filled(b) <= b.rows * b.columns && (Full(b) <==> Filled(b) == b.rows * b.columns)
    requires !FourInLine(b, s.symbols[Other(s.current)])
    ensures BoardInv(r')
  {
    if NoWrap(b) { MaxMovesIs(b, b.rows * b.columns); }
  }

  lemma MaxMovesIs(b: Board, cells: nat)
    requires b.rows * b.columns == cells < TWO32
    ensures MaxMoves(b) == cells
  {
  }

  lemma AcceptDiscs(r: Run, r': Run, s: State, move: Int32)
    requires Inv(r) && r.st.phase.Playing? && Good(s) && s == r.st.(flags := s.flags) && HasRoom(s.board, move)
    requires r'.st == Move(s, move).state && r'.first == r.first
    requires r'.history == r.history + [Accepted(s.current, s.board.rowsIndex[move] as int - 1, move)]
    ensures DiscInv(r')
  {
    AcceptFacts(s, move);
    MoveCases(s, move);
    DiscsOf(r, r', s.board.rowsIndex[move] as int - 1, move);
  }

  lemma DiscsOf(r: Run, r': Run, row: int, column: int)
    requires Good(r.st) && Good(r'.st) && DiscInv(r) && r.st.phase.Playing? && r'.st.symbols == r.st.symbols
    requires r'.history == r.history + [Accepted(r.st.current, row, column)]
    requires var p, b, b' := r.st.current, r.st.board, r'.st.board;
             && Filled(b') == Filled(b) + 1
             && |CellsOf(b', r.st.symbols[p])| == |CellsOf(b, r.st.symbols[p])| + 1
             && |CellsOf(b', r.st.symbols[Other(p)])| == |CellsOf(b, r.st.symbols[Other(p)])|
    ensures DiscInv(r')
  {
    var o := Accepted(r.st.current, row, column);
    HistorySnoc(r.history, o, 0);
    HistorySnoc(r.history, o, 1);
  }

  lemma AcceptTurn(r: Run, r': Run, s: State, move: Int32)
    requires Inv(r) && r.st.phase.Playing? && Good(s) && s == r.st.(flags := s.flags) && HasRoom(s.board, move)
    requires r'.st == Move(s, move).state && r'.first == r.first
    requires r'.history == r.history + [Accepted(s.current, s.board.rowsIndex[move] as int - 1, move)]
    ensures TurnInv(r')
  {
    DropMeaning(s.board, move, s.symbols[s.current]);
    MoveCases(s, move);
    TurnOf(r, r', s.board.rowsIndex[move] as int - 1, move);
  }

  lemma TurnOf(r: Run, r': Run, row: int, column: int)
    requires Good(r.st) && Good(r'.st) && TurnInv(r) && r.st.phase.Playing? && r'.first == r.first
    requires r'.history == r.history + [Accepted(r.st.current, row, column)]
    requires r'.st.phase.Playing? || r'.st.phase.Deciding? || r'.st.phase == Ended(-4)
    requires r'.st.phase.Playing? ==> r'.st.received && r'.st.current == Other(r.st.current) &&
                                      r'.st.timeouts == r.st.timeouts[r.st.current := 0]
    ensures TurnInv(r')
  {
    var o := Accepted(r.st.current, row, column);
    HistorySnoc(r.history, o, 0);
    HistorySnoc(r.history, o, 1);
    assert r'.history[|r'.history| - 1] == o;
  }

  lemma AcceptBound(r: Run, r': Run, s: State, move: Int32)
    requires Inv(r) && r.st.phase.Playing? && Good(s) && s == r.st.(flags := s.flags) && HasRoom(s.board, move)
    requires r'.st == Move(s, move).state && r'.first == r.first
    requires r'.history == r.history + [Accepted(s.current, s.board.rowsIndex[move] as int - 1, move)]
    ensures BoundInv(r')
  {
    var o := Accepted(s.current, s.board.rowsIndex[move] as int - 1, move);
    HistorySnoc(r.history, o, 0);
    HistorySnoc(r.history, o, 1);
    AcceptFacts(s, move);
  }

  lemma KeepsMove(r: Run, r': Run, s: State, move: Int32)
    requires Inv(r) && r.st.phase.Playing? && Good(s) && s == r.st.(flags := s.flags)
    requires r'.st == Move(s, move).state && r'.first == r.first
    requires r'.history == r.history + [if HasRoom(s.board, move)
                                        then Accepted(s.current, s.board.rowsIndex[move] as int - 1, move)
                                        else Rejected(s.current)]
    ensures Inv(r')
  {
    if HasRoom(s.board, move) { KeepsAccept(r, r', s, move); } else { KeepsReject(r, r', s, move); }
  }

  /** What a wake-up did to the run, by its outcome. */
  ghost predicate StepCase(r: Run, r': Run, s: State, w: Wake, o: Option<Outcome>)
    requires Good(r.st)
  {
    && Good(s) && s == r.st.(flags := s.flags) && Good(r'.st) && r'.first == r.first
    && r'.history == (if o.None? then r.history else r.history + [o.value])
    && match o
       case None => r' == r.(st := r.st.(flags := r'.st.flags), log := r'.log, kills := r'.kills)
       case Some(Answered) => r.st.phase.Deciding? && (r'.st == Decide(s, w.taken).state || r'.st == s.(phase := Killed))
       case Some(Stopped) =>
         r.st.phase.Playing? && r'.st.board == r.st.board && r'.st.symbols == r.st.symbols &&
         r'.st.phase in {Ended(-1), Ended(-2), Killed}
       case Some(Expired(p)) => r.st.phase.Playing? && p == s.current && r'.st == Expire(s).state
       case Some(out) =>
         r.st.phase.Playing? && w.taken.Some? && r'.st == Move(s, w.taken.value.move).state &&
         out == (var move := w.taken.value.move;
                 if HasRoom(s.board, move) then Accepted(s.current, s.board.rowsIndex[move] as int - 1, move)
                 else Rejected(s.current))
  }

  lemma StepForm(r: Run, w: Wake)
    requires Good(r.st)
    ensures StepCase(r, RunStep(r, w), r.st.(flags := Handle(r.st.flags, w.signals)), w, Classify(r.st, w))
  {
  }

  lemma CaseKeeps(r: Run, r': Run, s: State, w: Wake, o: Option<Outcome>)
    requires Inv(r) && StepCase(r, r', s, w, o)
    ensures Inv(r')
  {
    match o
    case None => KeepsNothing(r, r');
    case Some(Answered) => KeepsAnswer(r, r', w.taken, s);
    case Some(Stopped) => KeepsStop(r, r');
    case Some(Expired(_)) => KeepsExpire(r, r', s);
    case Some(_) => KeepsMove(r, r', s, w.taken.value.move);
  }

  lemma {:induction false} StepKeeps(r: Run, w: Wake)
    requires Inv(r)
    ensures Inv(RunStep(r, w))
  {
    StepForm(r, w);
    CaseKeeps(r, RunStep(r, w), r.st.(flags := Handle(r.st.flags, w.signals)), w, Classify(r.st, w));
  }

  /** A state on which a match may start: a fresh board and usable symbols. */
  ghost predicate Startable(s: State) {
    Good(s) && GoodSymbols(s.symbols) && s.board == Init(s.board.rows, s.board.columns) && s.moves == 0
  }

  lemma BeginKeeps(s: State, first: Player)
    requires Startable(s)
    ensures Inv(Begin(s, first))
  {
    InitValid(s.board.rows, s.board.columns);
    EmptyBoardLine(s.board.rows, s.board.columns, s.symbols[0]);
    EmptyBoardLine(s.board.rows, s.board.columns, s.symbols[1]);
    assert CellsOf(s.board, s.symbols[0]) == {} && CellsOf(s.board, s.symbols[1]) == {};
    CounterAgreement(s.board);
    assert !Full(s.board) by { assert s.board.cells[0][0] == BLANK; }
    assert s.board.rows * s.board.columns > 0;
  }

  /** Every run of one match, whatever the environment does. */
  lemma {:induction false} EveryRun(s: State, first: Player, ws: seq<Wake>)
    requires Startable(s)
    ensures Inv(Play(Begin(s, first), ws))
  {
    if ws == [] {
      BeginKeeps(s, first);
    } else {
      EveryRun(s, first, ws[..|ws| - 1]);
      StepKeeps(Play(Begin(s, first), ws[..|ws| - 1]), ws[|ws| - 1]);
    }
  }
}
