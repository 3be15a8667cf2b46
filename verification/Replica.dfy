/** The client: its replica of the board and what it does with each message. */
module Replica {
  import opened Messages
  import opened Grid

  datatype Mode =
    | Ready           // blocked on its queue
    | Asking          // waiting for the player's column
    | Confirming      // the winner, waiting for the restart answer
    | Left(code: int) // the loop returned
    | Aborted         // an error code that the client does not know

  /** `alarmed` once a SIGALRM came that no prompt has answered to yet. */
  datatype ClientState = ClientState(cells: seq<seq<char>>, columns: nat, own: char, opponent: char,
                                     alarmed: bool, mode: Mode)

  datatype Update = Update(row: int, column: int, symbol: char)

  /** The cell that a client writes when it takes a message. */
  function UpdateOf(m: Message, own: char, opponent: char): Option<Update> {
    match m
    case ServerAck(r) => Some(Update(r.row, r.column, own))
    case TurnStart(r) => Some(Update(r.row, r.column, opponent))
    case GameEnd(r) => if r.updateField then Some(Update(r.row, r.column, opponent)) else None
    case _ => None
  }

  function Write(cells: seq<seq<char>>, u: Option<Update>): seq<seq<char>> {
    if u.Some? then Put(cells, u.value.row, u.value.column, u.value.symbol) else cells
  }

  function Wipe(cells: seq<seq<char>>): seq<seq<char>> {
    seq(|cells|, i requires 0 <= i < |cells| => seq(|cells[i]|, j => BLANK))
  }

  function Take(c: ClientState, m: Message): ClientState {
    var d := c.(cells := Write(c.cells, UpdateOf(m, c.own, c.opponent)));
    match m
    case Error(code, _) =>
      if code == 400 then d.(mode := Asking)
      else if code == 408 then d
      else if code == 450 || code == 600 then d.(mode := Left(-3))
      else if code == 601 then d.(mode := Left(-5))
      else if code == 602 then d.(mode := Left(-8))
      else d.(mode := Aborted)
    case GameEnd(r) =>
      if r.winner then d.(mode := Confirming)
      else if r.draw then d.(mode := Left(-4))
      else if r.endGame then d.(cells := Wipe(d.cells))
      else d
    case TurnStart(_) => d.(mode := Asking)
    case GameStart(_) => d.(mode := Asking)
    case _ => d
  }

  // ----- The three kinds of GAME_END

  predicate Lose(m: Message) { m.GameEnd? && !m.reply.winner && !m.reply.draw && m.reply.endGame }

  predicate Win(m: Message) { m.GameEnd? && m.reply.winner && !m.reply.updateField }

  predicate DrawEnd(m: Message) { m.GameEnd? && !m.reply.winner && m.reply.draw }

  // ----- The player

  /** One read of the keyboard: the number typed, or the alarm going off. */
  datatype Input = Number(n: int) | Alarm

  datatype Answer = Column(column: Int32) | GaveUp | Restart | Stop

  /** The first usable reading: None while the player has typed none. An alarm from
      before the prompt costs the player the first reading, whatever it is. */
  function FirstAnswer(inputs: seq<Input>, columns: nat, alarmed: bool): (a: Option<Answer>)
    requires columns < 0x8000_0000
    ensures a.Some? ==> a.value == GaveUp || (a.value.Column? && 0 <= a.value.column < columns)
  {
    if inputs == [] then None
    else if alarmed then Some(GaveUp)
    else match inputs[0]
      case Alarm => Some(GaveUp)
      case Number(n) => if 0 < n <= columns then Some(Column(n - 1)) else FirstAnswer(inputs[1..], columns, false)
  }

  /** The readings before `i` are numbers, and none is that of a column; reading `i`, if there
      is one, is the alarm or the number of a column. The answer is then to give up, or the
      column before that number; without an alarm from before, there is always such an `i`. */
  lemma {:induction false} AnswerMeans(inputs: seq<Input>, columns: nat, alarmed: bool) returns (i: nat)
    requires columns < 0x8000_0000
    ensures alarmed ==> FirstAnswer(inputs, columns, alarmed) == if inputs == [] then None else Some(GaveUp)
    ensures i <= |inputs| && forall j :: 0 <= j < i ==> inputs[j].Number? && !(1 <= inputs[j].n <= columns)
    ensures i < |inputs| ==> inputs[i].Alarm? || 1 <= inputs[i].n <= columns
    ensures !alarmed ==> FirstAnswer(inputs, columns, alarmed) ==
                         if i == |inputs| then None else if inputs[i].Alarm? then Some(GaveUp) else Some(Column(inputs[i].n - 1))
  {
    i := 0;
    if inputs != [] && inputs[0].Number? && !(1 <= inputs[0].n <= columns) {
      i := AnswerMeans(inputs[1..], columns, false);
      i := i + 1;
      assert forall j :: 1 <= j < i ==> inputs[j] == inputs[1..][j - 1];
    }
  }

  datatype Reacted = Reacted(state: ClientState, sends: seq<Message>)

  function React(c: ClientState, a: Answer): Reacted {
    match (c.mode, a)
    case (Asking, Column(k)) => Reacted(c.(mode := Ready), [ClientMove(Request(k, false))])
    case (Asking, GaveUp) => Reacted(c.(mode := Ready, alarmed := false), [])
    case (Confirming, Restart) =>
      Reacted(c.(mode := Ready, cells := Wipe(c.cells)), [ClientMove(Request(0, true))])
    case (Confirming, Stop) => Reacted(c.(mode := Left(-7)), [ClientMove(Request(0, false))])
    case _ => Reacted(c, [])
  }

  /** One message, whether a SIGALRM came before the player could answer it, and what
      the player does about it. */
  datatype Delivery = Delivery(msg: Message, alarm: bool, inputs: seq<Input>, confirm: bool)

  function Iterate(c: ClientState, d: Delivery): (r: Reacted)
    requires c.columns < 0x8000_0000
    ensures r.state.columns == c.columns
  {
    var t := Take(c.(alarmed := c.alarmed || d.alarm), d.msg);
    if t.mode.Asking? then
      var a := FirstAnswer(d.inputs, c.columns, t.alarmed);
      if a.None? then Reacted(t, []) else React(t, a.value)
    else if t.mode.Confirming? then React(t, if d.confirm then Restart else Stop)
    else Reacted(t, [])
  }

  /** The message taken, and the restart question answered if it is asked. */
  function Dispatched(c: ClientState, m: Message, confirm: bool): Reacted {
    var t := Take(c, m);
    if t.mode.Confirming? then React(t, if confirm then Restart else Stop) else Reacted(t, [])
  }

  /** The prompt for a column. */
  function Prompting(c: ClientState, inputs: seq<Input>): Reacted
    requires c.columns < 0x8000_0000
  {
    var a := FirstAnswer(inputs, c.columns, c.alarmed);
    if a.None? then Reacted(c, []) else React(c, a.value)
  }

  lemma IterateParts(c: ClientState, d: Delivery)
    requires c.columns < 0x8000_0000
    ensures var r := Dispatched(c.(alarmed := c.alarmed || d.alarm), d.msg, d.confirm);
            && r.state.columns == c.columns
            && (r.state.mode.Asking? ==> r.sends == [])
            && Iterate(c, d) == if r.state.mode.Asking? then Prompting(r.state, d.inputs) else r
  {
  }

  /** The loop over a script of deliveries; a client that is not ready takes no more. */
  function Serve(c: ClientState, script: seq<Delivery>): (r: Reacted)
    requires c.columns < 0x8000_0000
    ensures r.state.columns == c.columns
  {
    if script == [] then Reacted(c, [])
    else
      var r := Serve(c, script[..|script| - 1]);
      if !r.state.mode.Ready? then r
      else
        var s := Iterate(r.state, script[|script| - 1]);
        Reacted(s.state, r.sends + s.sends)
  }

  // ----- The client's objects

  class ClientProcess {
    const rows: nat
    const columns: nat
    const symbol: char
    const opponentSymbol: char
    const matrix: array2<char>
    var timeoutHappened: bool
    /** Everything the client has put on its queue. */
    var sent: seq<Message>

    ghost predicate Allocated()
    {
      matrix.Length0 == rows && matrix.Length1 == columns && columns < 0x8000_0000
    }

    ghost function Cells(): (cells: seq<seq<char>>)
      requires Allocated()
      reads matrix
      ensures Rectangle(cells, rows, columns)
      ensures forall i, j :: 0 <= i < rows && 0 <= j < columns ==> cells[i][j] == matrix[i, j]
    {
      CellsOfMatrix(matrix)
    }

    ghost function Snapshot(mode: Mode): ClientState
      requires Allocated()
      reads this, matrix
    {
      ClientState(Cells(), columns, symbol, opponentSymbol, timeoutHappened, mode)
    }

    constructor (rows: nat, columns: nat, symbol: char, opponentSymbol: char)
      requires columns < 0x8000_0000
      ensures Allocated() && fresh(matrix) && !timeoutHappened && sent == []
      ensures Snapshot(Ready) == ClientState(BlankCells(rows, columns), columns, symbol, opponentSymbol, false, Ready)
    {
      this.rows, this.columns := rows, columns;
      this.symbol, this.opponentSymbol := symbol, opponentSymbol;
      timeoutHappened := false;
      sent := [];
      var m := new char[rows, columns];
      for i := 0 to rows
        invariant forall i', j :: 0 <= i' < i && 0 <= j < columns ==> m[i', j] == BLANK
      {
        forall j | 0 <= j < columns { m[i, j] := BLANK; }
      }
      matrix := m;
      new;
      SameCells(Cells(), BlankCells(rows, columns), rows, columns);
    }

    method Reset()
      requires Allocated()
      modifies matrix
      ensures Cells() == Wipe(old(Cells()))
    {
      for i := 0 to rows
        invariant forall i', j :: 0 <= i' < i && 0 <= j < columns ==> matrix[i', j] == BLANK
      {
        forall j | 0 <= j < columns { matrix[i, j] := BLANK; }
      }
      SameCells(Cells(), Wipe(old(Cells())), rows, columns);
    }

    /** The caller must name a cell of the board: the source does not check. */
    method SetPointIndex(row: nat, column: nat, s: char)
      requires Allocated() && row < rows && column < columns
      modifies matrix
      ensures Cells() == Put(old(Cells()), row, column, s)
    {
      matrix[row, column] := s;
      SameCells(Cells(), Put(old(Cells()), row, column, s), rows, columns);
    }

    /** A column number from 1 up, -1 for an unusable line, -2 once the alarm went off. */
    method GetMove(input: Input) returns (move: int)
      requires Allocated()
      modifies this`timeoutHappened
      ensures move == match input
                      case Alarm => -2
                      case Number(n) => if old(timeoutHappened) then -2 else if 0 < n <= columns then n else -1
      ensures !timeoutHappened
    {
      if input.Alarm? { timeoutHappened := true; }
      if timeoutHappened {
        timeoutHappened := false;
        return -2;
      }
      if input.n <= 0 || input.n > columns { return -1; }
      return input.n;
    }

    /** The prompt after GAME_START, TURN_START or error 400. */
    method AskMove(inputs: seq<Input>) returns (a: Option<Answer>)
      requires Allocated()
      modifies this`timeoutHappened, this`sent
      ensures a == FirstAnswer(inputs, columns, old(timeoutHappened))
      ensures timeoutHappened == (a.None? && old(timeoutHappened))
      ensures sent == old(sent) + if a.Some? && a.value.Column? then [ClientMove(Request(a.value.column, false))] else []
    {
      var move, i := 0, 0;
      assert inputs[0..] == inputs;
      while move <= 0
        invariant i <= |inputs| && sent == old(sent) && move <= columns
        invariant timeoutHappened == (i == 0 && old(timeoutHappened)) && (move > 0 ==> i > 0)
        invariant FirstAnswer(inputs, columns, old(timeoutHappened)) ==
                  if move > 0 then Some(Column(move - 1)) else FirstAnswer(inputs[i..], columns, timeoutHappened)
        decreases |inputs| - i, if move <= 0 then 1 else 0
      {
        if i == |inputs| { return None; }
        assert inputs[i..][1..] == inputs[i + 1..];
        move := GetMove(inputs[i]);
        i := i + 1;
        if move == -2 { return Some(GaveUp); }
      }
      sent := sent + [ClientMove(Request(move - 1, false))];
      return Some(Column(move - 1));
    }

    method ProcessError(code: int) returns (mode: Mode)
      ensures mode == Take(ClientState([], 0, BLANK, BLANK, false, Ready), Error(code, TurnLost)).mode
    {
      if code == 400 { return Asking; }
      if code == 408 { return Ready; }
      if code == 450 { return Left(-3); }
      if code == 600 { return Left(-3); }
      if code == 601 { return Left(-5); }
      if code == 602 { return Left(-8); }
      return Aborted;
    }

    method ProcessGameEnd(r: Reply, confirm: bool) returns (mode: Mode)
      requires Allocated() && (r.updateField ==> r.row < rows && r.column < columns)
      modifies matrix, this`sent
      ensures var s := Dispatched(old(Snapshot(Ready)), GameEnd(r), confirm);
              Snapshot(mode) == s.state && sent == old(sent) + s.sends
    {
      if r.updateField {
        SetPointIndex(r.row, r.column, opponentSymbol);
      }
      if r.winner {
        sent := sent + [ClientMove(Request(0, confirm))];
        if confirm {
          Reset();
          return Ready;
        }
        return Left(-7);
      }
      if r.draw { return Left(-4); }
      if r.endGame {
        Reset();
        return Ready;
      }
      return Ready;
    }

    /** One iteration of the loop: the message and what the player does about it. */
    method Process(d: Delivery) returns (mode: Mode)
      requires Allocated() && Fits(d.msg)
      modifies matrix, this
      ensures var r := Iterate(old(Snapshot(Ready)), d);
              Snapshot(mode) == r.state && sent == old(sent) + r.sends
    {
      if d.alarm { timeoutHappened := true; }
      assert Snapshot(Ready) == old(Snapshot(Ready)).(alarmed := timeoutHappened);
      IterateParts(old(Snapshot(Ready)), d);
      mode := Dispatch(d.msg, d.confirm);
      if mode.Asking? { mode := Prompt(d.inputs); }
    }

    /** The switch on the type of the message, up to the prompt for a column. */
    method Dispatch(m: Message, confirm: bool) returns (mode: Mode)
      requires Allocated() && Fits(m)
      modifies matrix, this`sent
      ensures var r := Dispatched(old(Snapshot(Ready)), m, confirm);
              Snapshot(mode) == r.state && sent == old(sent) + r.sends
    {
      mode := Ready;
      match m {
        case Error(code, _) => mode := ProcessError(code);
        case GameEnd(r) => mode := ProcessGameEnd(r, confirm);
        case GameStart(_) => mode := Asking;
        case TurnStart(r) =>
          SetPointIndex(r.row, r.column, opponentSymbol);
          mode := Asking;
        case ServerAck(r) => SetPointIndex(r.row, r.column, symbol);
        case ClientMove(_) => // its own move, taken back before the server saw it
      }
    }

    method Prompt(inputs: seq<Input>) returns (mode: Mode)
      requires Allocated()
      modifies this`timeoutHappened, this`sent
      ensures var r := Prompting(old(Snapshot(Asking)), inputs);
              Snapshot(mode) == r.state && sent == old(sent) + r.sends
    {
      var a := AskMove(inputs);
      mode := if a.Some? then Ready else Asking;
    }

    /** The loop: it stops when the client leaves, or waits for the player. */
    method ClientLoop(script: seq<Delivery>) returns (mode: Mode)
      requires Allocated()
      requires forall i :: 0 <= i < |script| ==> Fits(script[i].msg)
      modifies matrix, this
      ensures var r := Serve(old(Snapshot(Ready)), script);
              Snapshot(mode) == r.state && sent == old(sent) + r.sends
    {
      mode := Ready;
      var i := 0;
      while i < |script| && mode.Ready?
        invariant i <= |script|
        invariant var r := Serve(old(Snapshot(Ready)), script[..i]);
                  Snapshot(mode) == r.state && sent == old(sent) + r.sends
      {
        assert script[..i + 1][..i] == script[..i];
        ghost var r := Serve(old(Snapshot(Ready)), script[..i]);
        mode := Process(script[i]);
        assert old(sent) + r.sends + Iterate(r.state, script[i]).sends == old(sent) + (r.sends + Iterate(r.state, script[i]).sends);
        i := i + 1;
      }
      StoppedServes(old(Snapshot(Ready)), script, i);
    }

    ghost predicate Fits(m: Message)
    {
      var u := UpdateOf(m, symbol, opponentSymbol);
      u.Some? ==> 0 <= u.value.row < rows && 0 <= u.value.column < columns
    }
  }

  lemma SameCells(a: seq<seq<char>>, b: seq<seq<char>>, rows: nat, columns: nat)
    requires Rectangle(a, rows, columns) && Rectangle(b, rows, columns)
    requires forall i, j :: 0 <= i < rows && 0 <= j < columns ==> a[i][j] == b[i][j]
    ensures a == b
  {
    forall i | 0 <= i < rows ensures a[i] == b[i] {}
  }

  lemma WipeIsBlank(cells: seq<seq<char>>, rows: nat, columns: nat)
    requires Rectangle(cells, rows, columns)
    ensures Wipe(cells) == BlankCells(rows, columns)
  {
    SameCells(Wipe(cells), BlankCells(rows, columns), rows, columns);
  }

  lemma {:induction false} StoppedServes(c: ClientState, script: seq<Delivery>, i: nat)
    requires c.columns < 0x8000_0000 && i <= |script|
    requires i < |script| ==> !Serve(c, script[..i]).state.mode.Ready?
    ensures Serve(c, script) == Serve(c, script[..i])
    decreases |script|
  {
    assert script[..|script|] == script;
    if i < |script| {
      var n := |script| - 1;
      assert script[..n][..i] == script[..i];
      StoppedServes(c, script[..n], i);
    }
  }
}
