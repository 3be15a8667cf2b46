/** One match as a state machine: the server's state at a blocked receive, what
    the environment can do to it, and the step that one wake-up performs. */
module Match {
  import opened Messages
  import opened Grid

  const MAX_TIMEOUT_MATCH := 3

  // ----- Signals

  datatype Signal = SigInt | SigUsr1 | SigUsr2 | SigAlarm

  /** The flags that the handlers set; `killed` once a repeated SIGINT ended the process. */
  datatype Flags = Flags(disconnected: seq<bool>, counter: nat, happened: bool, timeout: bool,
                         ctrlC: bool, killed: bool)

  /** The player whom the handler of the two user signals marks. */
  function Sender(sig: Signal): Player { if sig == SigUsr2 then 1 else 0 }

  function HandleOne(f: Flags, sig: Signal): (r: Flags)
    requires |f.disconnected| == 2
    ensures |r.disconnected| == 2
  {
    if f.killed then f
    else match sig
      case SigInt => if f.ctrlC then f.(killed := true) else f.(ctrlC := true)
      case SigAlarm => f.(timeout := true)
      case _ => f.(disconnected := f.disconnected[Sender(sig) := true], counter := f.counter + 1, happened := true)
  }

  function Handle(f: Flags, sigs: seq<Signal>): (r: Flags)
    requires |f.disconnected| == 2
    ensures |r.disconnected| == 2
  {
    if sigs == [] then f else HandleOne(Handle(f, sigs[..|sigs| - 1]), sigs[|sigs| - 1])
  }

  // ----- State

  datatype Phase =
    | Playing            // blocked at the head of the loop
    | Deciding           // blocked on the winner's answer
    | Ended(status: int) // the loop returned
    | Killed

  datatype State = State(phase: Phase, board: Board, moves: nat, current: Player, timeouts: seq<nat>,
                         received: bool, symbols: seq<char>, flags: Flags)

  ghost predicate Good(s: State) {
    Shape(s.board) && |s.timeouts| == 2 && |s.symbols| == 2 && |s.flags.disconnected| == 2
  }

  /** The parts of the state that nothing changes. */
  predicate SameGame(s: State, t: State) {
    t.symbols == s.symbols && t.board.rows == s.board.rows && t.board.columns == s.board.columns
  }

  /** One wake-up of the blocked server: the signals handled until the receive
      returns, the request it took off the queue (None if it was interrupted), and
      the signals handled before the disconnection counter is tested. */
  datatype Wake = Wake(signals: seq<Signal>, taken: Option<Request>, late: seq<Signal>)

  datatype Stepped = Stepped(state: State, sends: seq<Send>)

  /** The number of moves that fill the board, computed in 32 bits. */
  function MaxMoves(b: Board): int { b.rows * b.columns % TWO32 }

  function FirstConnected(f: Flags): Option<Player>
    requires |f.disconnected| == 2
  {
    if !f.disconnected[0] then Some(0) else if !f.disconnected[1] then Some(1) else None
  }

  /** No flag is up. */
  predicate Calm(f: Flags) { !f.happened && !f.timeout && !f.killed }

  function ToHead(s: State): State { s.(flags := s.flags.(ctrlC := false)) }

  // ----- The step

  ghost function Disconnect(s: State, late: seq<Signal>): (r: Stepped)
    requires Good(s)
    ensures Good(r.state) && SameGame(s, r.state)
  {
    var client := FirstConnected(s.flags);
    if client.None? then Stepped(s.(phase := Ended(-1)), [])
    else
      var f := Handle(s.flags, late);
      Stepped(s.(flags := f, phase := if f.killed then Killed else Ended(if f.counter == 2 then -1 else -2)),
              [Send(client.value, Error(601, OpponentDisconnected))])
  }

  ghost function Expire(s: State): (r: Stepped)
    requires Good(s)
    ensures Good(r.state) && SameGame(s, r.state)
  {
    var p := s.current;
    var q := Other(p);
    var t := s.(flags := s.flags.(timeout := false), timeouts := s.timeouts[p := s.timeouts[p] + 1], current := q);
    if t.timeouts[p] > MAX_TIMEOUT_MATCH then
      Stepped(t.(phase := Ended(-3)),
              [Send(p, Error(600, LostByInactivity)),
               Send(q, Error(450, if s.received then WonByForfeit else EndedByInactivity))])
    else
      Stepped(ToHead(t), [Send(p, Error(408, TurnLost)), Send(q, GameStart(NO_UPDATE))])
  }

  ghost function Move(s: State, move: Int32): (r: Stepped)
    requires Good(s)
    ensures Good(r.state) && SameGame(s, r.state)
  {
    var p := s.current;
    var q := Other(p);
    var Dropped(board, row) := Drop(s.board, move, s.symbols[p]);
    if row < 0 then
      Stepped(ToHead(s.(received := true)), [Send(p, Error(400, InvalidMove))])
    else
      Accept(s.(received := true, board := board), row, move)
  }

  /** The rest of an accepted move, once the disc is on the board. */
  ghost function Accept(s: State, row: nat, move: nat): (r: Stepped)
    requires Good(s)
    ensures Good(r.state) && SameGame(s, r.state)
    ensures |r.sends| >= 1 && r.sends[0] == Send(s.current, ServerAck(Reply(row, move, false, false, false, true)))
  {
    var p := s.current;
    var q := Other(p);
    var resp := Reply(row, move, false, false, false, true);
    var ack := Send(p, ServerAck(resp));
    if FourInLine(s.board, s.symbols[p]) then
      Stepped(s.(flags := s.flags.(timeout := false), phase := Deciding),
              [ack, Send(p, GameEnd(Reply(row, move, true, false, true, false))),
               Send(q, GameEnd(Reply(row, move, false, false, true, true)))])
    else if s.moves + 1 == MaxMoves(s.board) then
      Stepped(s.(moves := s.moves + 1, phase := Ended(-4)),
              [ack, Send(p, GameEnd(Reply(row, move, false, true, true, false))),
               Send(q, GameEnd(Reply(row, move, false, true, true, true)))])
    else
      Stepped(ToHead(s.(moves := s.moves + 1, timeouts := s.timeouts[p := 0], current := q)),
              [ack, Send(q, TurnStart(resp))])
  }

  ghost function Decide(s: State, taken: Option<Request>): (r: Stepped)
    requires Good(s)
    ensures Good(r.state) && SameGame(s, r.state)
  {
    if taken.None? && s.flags.happened && FirstConnected(s.flags).None? then
      Stepped(s.(phase := Ended(-1)), [])
    else if taken.Some? && taken.value.restartMatch then
      Stepped(s.(phase := Ended(s.current), board := Init(s.board.rows, s.board.columns), moves := 0), [])
    else
      Stepped(s.(phase := Ended(-1)), [Send(Other(s.current), Error(602, OpponentStops))])
  }

  /** One wake-up. An interrupted receive that finds neither flag raised blocks again. */
  ghost function Step(s: State, w: Wake): (r: Stepped)
    requires Good(s)
    ensures Good(r.state) && SameGame(s, r.state)
  {
    if !s.phase.Playing? && !s.phase.Deciding? then Stepped(s, [])
    else
      var t := s.(flags := Handle(s.flags, w.signals));
      if t.flags.killed then Stepped(t.(phase := Killed), [])
      else if w.taken.None? && !t.flags.happened && !t.flags.timeout then Stepped(t, [])
      else if s.phase.Deciding? then Decide(t, w.taken)
      else if t.flags.happened then Disconnect(t, w.late)
      else if t.flags.timeout then Expire(t)
      else Move(t, w.taken.value.move)
  }

  // ----- The signals that the server sends

  datatype Kill = Kill(to: Player, signal: Signal)

  /** A repeated SIGINT takes both clients down. */
  const TAKE_DOWN := [Kill(0, SigUsr1), Kill(1, SigUsr1)]

  /** What handling signals sends, from the flags before and after. */
  function HandlerKills(f: Flags, g: Flags): seq<Kill> {
    if g.killed && !f.killed then TAKE_DOWN else []
  }

  /** What one wake-up sends: an alarm to the player who lost the turn, to both at a
      forfeit, the opponent first. */
  ghost function Kills(s: State, w: Wake): seq<Kill>
    requires Good(s)
  {
    if !s.phase.Playing? && !s.phase.Deciding? then []
    else
      var f := Handle(s.flags, w.signals);
      if f.killed then HandlerKills(s.flags, f)
      else if s.phase.Deciding? then []
      else if f.happened then
        if FirstConnected(f).None? then [] else HandlerKills(f, Handle(f, w.late))
      else if f.timeout then ExpireKills(s)
      else []
  }

  function ExpireKills(s: State): seq<Kill>
    requires |s.timeouts| == 2
  {
    if s.timeouts[s.current] + 1 > MAX_TIMEOUT_MATCH
    then [Kill(Other(s.current), SigAlarm), Kill(s.current, SigAlarm)]
    else [Kill(s.current, SigAlarm)]
  }

  // ----- Runs

  /** What a wake-up amounted to, told from the board and the flags alone. */
  datatype Outcome =
    | Accepted(player: Player, row: int, column: int)
    | Rejected(player: Player)
    | Expired(player: Player)
    | Stopped
    | Answered

  ghost function Classify(s: State, w: Wake): Option<Outcome>
    requires Good(s)
  {
    var f := Handle(s.flags, w.signals);
    if !s.phase.Playing? && !s.phase.Deciding? then None
    else if !f.killed && w.taken.None? && !f.happened && !f.timeout then None
    else if s.phase.Deciding? then Some(Answered)
    else if f.killed || f.happened then Some(Stopped)
    else if f.timeout then Some(Expired(s.current))
    else if HasRoom(s.board, w.taken.value.move)
    then Some(Accepted(s.current, s.board.rowsIndex[w.taken.value.move] as int - 1, w.taken.value.move))
    else Some(Rejected(s.current))
  }

  /** A match so far: its state, who moved first, the outcomes of its wake-ups and
      the messages and the signals sent. */
  datatype Run = Run(st: State, first: Player, history: seq<Outcome>, log: seq<Send>, kills: seq<Kill>)

  /** The start of a match on the state that the previous one left. */
  ghost function Begin(s: State, first: Player): (r: Run)
    requires Good(s)
    ensures Good(r.st) && SameGame(s, r.st) && r.first == first
  {
    Run(ToHead(s.(phase := Playing, current := first, timeouts := [0, 0], received := false)),
        first, [], [Send(first, GameStart(NO_UPDATE))], [])
  }

  ghost function RunStep(r: Run, w: Wake): (r': Run)
    requires Good(r.st)
    ensures Good(r'.st) && SameGame(r.st, r'.st) && r'.first == r.first
  {
    var Stepped(st, sends) := Step(r.st, w);
    var o := Classify(r.st, w);
    Run(st, r.first, if o.None? then r.history else r.history + [o.value], r.log + sends, r.kills + Kills(r.st, w))
  }

  ghost function Play(r: Run, ws: seq<Wake>): (r': Run)
    requires Good(r.st)
    ensures Good(r'.st) && SameGame(r.st, r'.st) && r'.first == r.first
  {
    if ws == [] then r else RunStep(Play(r, ws[..|ws| - 1]), ws[|ws| - 1])
  }
}
