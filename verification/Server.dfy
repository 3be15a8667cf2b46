/** The server: the objects that it updates, its signal handlers, the receive loop
    and the match loop, each proved against the match state machine. */
module Server {
  import opened Messages
  import opened Grid
  import opened GameField
  import opened Match
  import opened MatchSafety
  import opened Session

  datatype Received = Got(request: Request) | Interrupted | StillBlocked | Terminated

  class Client {
    const symbol: char
    var timeoutCounter: nat
    var disconnected: bool

    constructor (symbol: char)
      ensures this.symbol == symbol && timeoutCounter == 0 && !disconnected
    {
      this.symbol := symbol;
      timeoutCounter := 0;
      disconnected := false;
    }
  }

  class Server {
    const players: seq<Client>
    const field: GameField
    var currentPlayer: Player
    var wasCtrlCPressed: bool
    var disconnectionHappened: bool
    var timeoutHappened: bool
    var terminated: bool
    var disconnectionCounter: nat
    /** Everything put on the two queues, in order. */
    var sent: seq<Send>
    /** Every signal sent to a client, in order. */
    var kills: seq<Kill>

    ghost predicate Wired()
    {
      && |players| == 2 && players[0] != players[1]
      && field.Allocated() && GoodSize(field.rows, field.columns)
    }

    ghost function Repr(): set<object>
      requires Wired()
    {
      {this, players[0], players[1], field, field.matrix, field.rowsIndex}
    }

    ghost function FlagsNow(): (f: Flags)
      requires Wired()
      reads Repr()
      ensures |f.disconnected| == 2
    {
      Flags([players[0].disconnected, players[1].disconnected], disconnectionCounter, disconnectionHappened,
            timeoutHappened, wasCtrlCPressed, terminated)
    }

    /** The state of the match, given the two things that live in the loop's locals. */
    ghost function Snapshot(phase: Phase, received: bool): State
      requires Wired()
      reads Repr()
    {
      State(phase, field.Value(), field.movesCounter, currentPlayer,
            [players[0].timeoutCounter, players[1].timeoutCounter], received,
            [players[0].symbol, players[1].symbol], FlagsNow())
    }

    constructor (rows: nat, columns: nat, symbols: seq<char>)
      requires GoodSize(rows, columns) && |symbols| == 2
      ensures Wired() && fresh(Repr())
      ensures field.rows == rows && field.columns == columns
      ensures forall received :: Snapshot(Playing, received).board == Init(rows, columns)
      ensures field.movesCounter == 0 && players[0].symbol == symbols[0] && players[1].symbol == symbols[1]
      ensures FlagsNow() == Flags([false, false], 0, false, false, false, false) && sent == [] && kills == []
    {
      var a := new Client(symbols[0]);
      var b := new Client(symbols[1]);
      players := [a, b];
      var f := new GameField(rows, columns);
      field := f;
      currentPlayer := 0;
      wasCtrlCPressed, disconnectionHappened, timeoutHappened, terminated := false, false, false, false;
      disconnectionCounter := 0;
      sent, kills := [], [];
    }

    // ----- Signals

    method SigUsrHandler(signal: Signal)
      requires Wired() && !terminated && (signal == SigUsr1 || signal == SigUsr2)
      modifies this, players[0], players[1]
      ensures FlagsNow() == HandleOne(old(FlagsNow()), signal)
      ensures forall p, r :: Snapshot(p, r) == old(Snapshot(p, r)).(flags := FlagsNow())
      ensures sent == old(sent) && kills == old(kills)
    {
      var sender := if signal == SigUsr2 then 1 else 0;
      players[sender].disconnected := true;
      disconnectionCounter := disconnectionCounter + 1;
      disconnectionHappened := true;
    }

    method SigIntHandler()
      requires Wired() && !terminated
      modifies this
      ensures FlagsNow() == HandleOne(old(FlagsNow()), SigInt)
      ensures forall p, r :: Snapshot(p, r) == old(Snapshot(p, r)).(flags := FlagsNow())
      ensures sent == old(sent) && kills == old(kills) + HandlerKills(old(FlagsNow()), FlagsNow())
    {
      if !wasCtrlCPressed {
        wasCtrlCPressed := true;
      } else {
        kills := kills + TAKE_DOWN;
        terminated := true;
      }
    }

    method SigAlarmHandler()
      requires Wired() && !terminated
      modifies this
      ensures FlagsNow() == HandleOne(old(FlagsNow()), SigAlarm)
      ensures forall p, r :: Snapshot(p, r) == old(Snapshot(p, r)).(flags := FlagsNow())
      ensures sent == old(sent) && kills == old(kills)
    {
      timeoutHappened := true;
    }

    method Deliver(signals: seq<Signal>)
      requires Wired()
      modifies this, players[0], players[1]
      ensures FlagsNow() == Handle(old(FlagsNow()), signals)
      ensures forall p, r :: Snapshot(p, r) == old(Snapshot(p, r)).(flags := FlagsNow())
      ensures sent == old(sent) && kills == old(kills) + HandlerKills(old(FlagsNow()), FlagsNow())
    {
      assert signals[..|signals|] == signals;
      for i := 0 to |signals|
        invariant FlagsNow() == Handle(old(FlagsNow()), signals[..i])
        invariant forall p, r :: Snapshot(p, r) == old(Snapshot(p, r)).(flags := FlagsNow())
        invariant old(terminated) ==> terminated
        invariant sent == old(sent) && kills == old(kills) + HandlerKills(old(FlagsNow()), FlagsNow())
      {
        assert signals[..i + 1][..i] == signals[..i];
        if !terminated { Handler(signals[i]); }
      }
    }

    method Handler(signal: Signal)
      requires Wired() && !terminated
      modifies this, players[0], players[1]
      ensures FlagsNow() == HandleOne(old(FlagsNow()), signal)
      ensures forall p, r :: Snapshot(p, r) == old(Snapshot(p, r)).(flags := FlagsNow())
      ensures sent == old(sent) && kills == old(kills) + HandlerKills(old(FlagsNow()), FlagsNow())
    {
      match signal
      case SigInt => SigIntHandler();
      case SigAlarm => SigAlarmHandler();
      case _ => SigUsrHandler(signal);
    }

    /** One return of the blocking receive. An interruption that raised neither flag is
        retried: the caller then waits for the next wake-up. */
    method QueueReceive(w: Wake) returns (r: Received)
      requires Wired()
      modifies this, players[0], players[1]
      ensures FlagsNow() == Handle(old(FlagsNow()), w.signals)
      ensures forall p, r :: Snapshot(p, r) == old(Snapshot(p, r)).(flags := FlagsNow())
      ensures sent == old(sent) && kills == old(kills) + HandlerKills(old(FlagsNow()), FlagsNow())
      ensures r == if FlagsNow().killed then Terminated
                   else if w.taken.Some? then Got(w.taken.value)
                   else if FlagsNow().happened || FlagsNow().timeout then Interrupted
                   else StillBlocked
    {
      Deliver(w.signals);
      if terminated { return Terminated; }
      match w.taken
      case Some(req) => r := Got(req);
      case None => r := if disconnectionHappened || timeoutHappened then Interrupted else StillBlocked;
    }

    // ----- The match loop

    method UpdateState(p: Player)
      requires Wired()
      modifies this`currentPlayer
      ensures currentPlayer == p
    {
      currentPlayer := p;
    }

    method QueueSend(to: Player, m: Message)
      modifies this`sent
      ensures sent == old(sent) + [Send(to, m)]
    {
      sent := sent + [Send(to, m)];
    }

    method SendSignal(to: Player, signal: Signal)
      modifies this`kills
      ensures kills == old(kills) + [Kill(to, signal)]
    {
      kills := kills + [Kill(to, signal)];
    }

    method GetConnectedPlayer() returns (client: Option<Player>)
      requires Wired()
      ensures client.None? ==> players[0].disconnected && players[1].disconnected
      ensures client.Some? ==> !players[client.value].disconnected && forall k :: 0 <= k < client.value ==> players[k].disconnected
    {
      var i := 0;
      while i < 2
        invariant 0 <= i <= 2 && forall k :: 0 <= k < i ==> players[k].disconnected
      {
        if !players[i].disconnected { return Some(i); }
        i := i + 1;
      }
      return None;
    }

    method OnDisconnection(received: bool, late: seq<Signal>) returns (phase: Phase)
      requires Wired() && Shape(Snapshot(Playing, received).board)
      modifies this, players[0], players[1]
      ensures Stepped(Snapshot(phase, received), sent) ==
              var r := Disconnect(old(Snapshot(Playing, received)), late);
              Stepped(r.state, old(sent) + r.sends)
      ensures kills == old(kills) + if FirstConnected(old(FlagsNow())).None? then [] else HandlerKills(old(FlagsNow()), FlagsNow())
    {
      var client := GetConnectedPlayer();
      if client.None? {
        return Ended(-1);
      }
      QueueSend(client.value, Error(601, OpponentDisconnected));
      Deliver(late);
      if terminated { return Killed; }
      if disconnectionCounter == 2 { return Ended(-1); }
      return Ended(-2);
    }

    method OnTimeout(received: bool) returns (phase: Phase)
      requires Wired() && Shape(Snapshot(Playing, received).board)
      modifies this, players[0], players[1]
      ensures Stepped(Snapshot(phase, received), sent) ==
              var r := Expire(old(Snapshot(Playing, received)));
              Stepped(r.state, old(sent) + r.sends)
      ensures kills == old(kills) + ExpireKills(old(Snapshot(Playing, received)))
    {
      timeoutHappened := false;
      players[currentPlayer].timeoutCounter := players[currentPlayer].timeoutCounter + 1;
      if players[currentPlayer].timeoutCounter > MAX_TIMEOUT_MATCH {
        OnForfeit(received);
        return Ended(-3);
      }
      OnTurnLost();
      return Playing;
    }

    method OnForfeit(received: bool)
      requires Wired()
      modifies this`sent, this`kills, this`currentPlayer
      ensures currentPlayer == Other(old(currentPlayer))
      ensures sent == old(sent) + [Send(old(currentPlayer), Error(600, LostByInactivity)),
                                   Send(currentPlayer, Error(450, if received then WonByForfeit else EndedByInactivity))]
      ensures kills == old(kills) + [Kill(currentPlayer, SigAlarm), Kill(old(currentPlayer), SigAlarm)]
    {
      QueueSend(currentPlayer, Error(600, LostByInactivity));
      UpdateState(Other(currentPlayer));
      QueueSend(currentPlayer, Error(450, if received then WonByForfeit else EndedByInactivity));
      SendSignal(currentPlayer, SigAlarm);
      SendSignal(Other(currentPlayer), SigAlarm);
    }

    method OnTurnLost()
      requires Wired()
      modifies this`sent, this`kills, this`currentPlayer, this`wasCtrlCPressed
      ensures currentPlayer == Other(old(currentPlayer)) && !wasCtrlCPressed
      ensures sent == old(sent) + [Send(old(currentPlayer), Error(408, TurnLost)), Send(currentPlayer, GameStart(NO_UPDATE))]
      ensures kills == old(kills) + [Kill(old(currentPlayer), SigAlarm)]
    {
      SendSignal(currentPlayer, SigAlarm);
      QueueSend(currentPlayer, Error(408, TurnLost));
      UpdateState(Other(currentPlayer));
      QueueSend(currentPlayer, GameStart(NO_UPDATE));
      wasCtrlCPressed := false;
    }

    method OnMove(received: bool, move: Int32, kernels: seq<array2<char>>) returns (phase: Phase)
      requires Wired() && KernelShapes(kernels) && Shape(Snapshot(Playing, received).board)
      requires forall k :: 0 <= k < 4 ==> kernels[k] != field.matrix
      modifies Repr()
      ensures Stepped(Snapshot(phase, true), sent) ==
              var r := Match.Move(old(Snapshot(Playing, received)), move);
              Stepped(r.state, old(sent) + r.sends)
      ensures kills == old(kills)
    {
      var p := currentPlayer;
      var row := field.SetPoint(move, players[p].symbol);
      if row < 0 {
        QueueSend(p, Error(400, InvalidMove));
        wasCtrlCPressed := false;
        assert Snapshot(Playing, true) == ToHead(old(Snapshot(Playing, received)).(received := true));
        return Playing;
      }
      phase := OnAccepted(row, move, kernels);
    }

    method OnAccepted(row: nat, move: nat, kernels: seq<array2<char>>) returns (phase: Phase)
      requires Wired() && KernelShapes(kernels) && Shape(Snapshot(Playing, true).board)
      modifies this, players[0], players[1], field
      ensures Stepped(Snapshot(phase, true), sent) ==
              var r := Accept(old(Snapshot(Playing, true)), row, move);
              Stepped(r.state, old(sent) + r.sends)
      ensures kills == old(kills)
    {
      QueueSend(currentPlayer, ServerAck(Reply(row, move, false, false, false, true)));
      var win := field.CheckWin(players[currentPlayer].symbol, kernels);
      phase := OnScanned(row, move, win);
    }

    /** The accepted move once the board has been scanned: the acknowledgement is sent. */
    method OnScanned(row: nat, move: nat, win: bool) returns (phase: Phase)
      requires Wired() && Shape(Snapshot(Playing, true).board)
      requires win <==> FourInLine(Snapshot(Playing, true).board, players[currentPlayer].symbol)
      modifies this, players[0], players[1], field
      ensures var r := Accept(old(Snapshot(Playing, true)), row, move);
              && Snapshot(phase, true) == r.state
              && old(sent) + r.sends[1..] == sent
      ensures kills == old(kills)
    {
      if win {
        OnWin(row, move);
        return Deciding;
      }
      field.movesCounter := field.movesCounter + 1;
      if field.movesCounter == field.rows * field.columns % TWO32 {
        OnDraw(row, move);
        return Ended(-4);
      }
      OnNextTurn(row, move);
      return Playing;
    }

    method OnWin(row: nat, move: nat)
      requires Wired()
      modifies this
      ensures var s := old(Snapshot(Playing, true));
              Snapshot(Deciding, true) == s.(phase := Deciding, flags := s.flags.(timeout := false))
      ensures sent == old(sent) + [Send(currentPlayer, GameEnd(Reply(row, move, true, false, true, false))),
                                   Send(Other(currentPlayer), GameEnd(Reply(row, move, false, false, true, true)))]
      ensures kills == old(kills)
    {
      timeoutHappened := false;
      QueueSend(currentPlayer, GameEnd(Reply(row, move, true, false, true, false)));
      QueueSend(Other(currentPlayer), GameEnd(Reply(row, move, false, false, true, true)));
    }

    method OnDraw(row: nat, move: nat)
      requires Wired()
      modifies this`sent
      ensures sent == old(sent) + [Send(currentPlayer, GameEnd(Reply(row, move, false, true, true, false))),
                                   Send(Other(currentPlayer), GameEnd(Reply(row, move, false, true, true, true)))]
    {
      QueueSend(currentPlayer, GameEnd(Reply(row, move, false, true, true, false)));
      QueueSend(Other(currentPlayer), GameEnd(Reply(row, move, false, true, true, true)));
    }

    method OnNextTurn(row: nat, move: nat)
      requires Wired()
      modifies this, players[0], players[1]
      ensures var s := old(Snapshot(Playing, true));
              Snapshot(Playing, true) ==
              ToHead(s.(timeouts := s.timeouts[s.current := 0], current := Other(s.current)))
      ensures sent == old(sent) + [Send(Other(old(currentPlayer)), TurnStart(Reply(row, move, false, false, false, true)))]
      ensures kills == old(kills)
    {
      players[currentPlayer].timeoutCounter := 0;
      UpdateState(Other(currentPlayer));
      QueueSend(currentPlayer, TurnStart(Reply(row, move, false, false, false, true)));
      wasCtrlCPressed := false;
    }

    method OnAnswer(received: bool, taken: Option<Request>) returns (phase: Phase)
      requires Wired() && Shape(Snapshot(Deciding, received).board)
      modifies Repr()
      ensures Stepped(Snapshot(phase, received), sent) ==
              var r := Decide(old(Snapshot(Deciding, received)), taken);
              Stepped(r.state, old(sent) + r.sends)
      ensures kills == old(kills)
    {
      var req := if taken.Some? then taken.value else Request(0, false);
      if taken.None? {
        if disconnectionHappened {
          var player := GetConnectedPlayer();
          if player.None? { return Ended(-1); }
          QueueSend(Other(currentPlayer), Error(602, OpponentStops));
          return Ended(-1);
        }
      }
      if req.restartMatch {
        field.Reset();
        return Ended(currentPlayer);
      }
      QueueSend(Other(currentPlayer), Error(602, OpponentStops));
      return Ended(-1);
    }

    /** One match. `wakes` lists what wakes the blocked server, and the result is
        where the loop stands after the last of them. */
    method ServerLoop(firstPlayerIndex: Player, wakes: seq<Wake>) returns (phase: Phase, atLeastOnePoint: bool)
      requires Wired() && Shape(Snapshot(Playing, false).board)
      modifies Repr()
      ensures var r := Play(Begin(old(Snapshot(Playing, false)), firstPlayerIndex), wakes);
              Snapshot(phase, atLeastOnePoint) == r.st && sent == old(sent) + r.log
      ensures kills == old(kills) + Play(Begin(old(Snapshot(Playing, false)), firstPlayerIndex), wakes).kills
    {
      ghost var start := Begin(Snapshot(Playing, false), firstPlayerIndex);
      var kernels := InitKernels();
      StartMatch(firstPlayerIndex);
      assert sent[..|old(sent)|] == old(sent);
      phase, atLeastOnePoint := Wait(start, old(sent), old(kills), wakes, kernels);
    }

    /** The loop proper, from the start of the match on. */
    method Wait(ghost start: Run, ghost before: seq<Send>, ghost killed: seq<Kill>, wakes: seq<Wake>, kernels: seq<array2<char>>)
      returns (phase: Phase, atLeastOnePoint: bool)
      requires Wired() && Good(start.st) && start.st == Snapshot(Playing, false) && sent == before + start.log
      requires kills == killed + start.kills
      requires KernelShapes(kernels) && forall k :: 0 <= k < 4 ==> kernels[k] != field.matrix
      modifies Repr()
      ensures var r := Play(start, wakes);
              Snapshot(phase, atLeastOnePoint) == r.st && sent == before + r.log
      ensures kills == killed + Play(start, wakes).kills
    {
      phase, atLeastOnePoint := Playing, false;
      var i := 0;
      ghost var run := start;
      while i < |wakes| && (phase.Playing? || phase.Deciding?)
        invariant i <= |wakes| && Good(run.st)
        invariant run == Play(start, wakes[..i])
        invariant Snapshot(phase, atLeastOnePoint) == run.st && sent == before + run.log
        invariant kills == killed + run.kills
      {
        PlayNext(start, wakes, i);
        phase, atLeastOnePoint, run := Advance(phase, atLeastOnePoint, run, before, killed, wakes[i], kernels);
        i := i + 1;
      }
      FinishedStays(start, wakes, i);
    }

    method Advance(phase: Phase, received: bool, ghost run: Run, ghost before: seq<Send>, ghost killed: seq<Kill>, w: Wake,
                   kernels: seq<array2<char>>) returns (phase': Phase, received': bool, ghost run': Run)
      requires Wired() && Good(run.st) && Snapshot(phase, received) == run.st && sent == before + run.log && kills == killed + run.kills
      requires phase.Playing? || phase.Deciding?
      requires KernelShapes(kernels) && forall k :: 0 <= k < 4 ==> kernels[k] != field.matrix
      modifies Repr()
      ensures run' == RunStep(run, w) && Snapshot(phase', received') == run'.st && sent == before + run'.log
      ensures kills == killed + run'.kills
    {
      phase', received' := Iteration(phase, received, w, kernels);
      run' := RunStep(run, w);
      Extended(before, run.log, Step(run.st, w).sends);
      Extended(killed, run.kills, Kills(run.st, w));
    }

    /** The main loop: another match after every rematch, started by the player whom
        the last one did not return. */
    method PlayMatches(schedule: seq<seq<Wake>>) returns (phase: Phase, received: bool, ghost runs: seq<Run>)
      requires Wired() && Shape(Snapshot(Playing, false).board) && schedule != []
      modifies Repr()
      ensures Played(runs, old(Snapshot(Playing, false)), 0, schedule) && Complete(runs, schedule)
      ensures Snapshot(phase, received) == runs[|runs| - 1].st
      ensures sent == old(sent) + AllSent(runs) && kills == old(kills) + AllKills(runs)
    {
      runs := [];
      ghost var start, before, killed := Snapshot(Playing, false), sent, kills;
      var firstPlayer: Player := 0;
      var k := 0;
      while true
        invariant |runs| == k < |schedule| && Shape(Snapshot(Playing, false).board)
        invariant Opens(runs, start, 0, schedule, Snapshot(Playing, false), firstPlayer)
        invariant sent == before + AllSent(runs) && kills == killed + AllKills(runs)
        decreases |schedule| - k
      {
        phase, received, runs := AnotherMatch(firstPlayer, schedule, k, start, before, killed, runs);
        k := k + 1;
        if !(phase == Ended(0) || phase == Ended(1)) || k == |schedule| {
          return;
        }
        firstPlayer := Other(phase.status);
      }
    }

    method AnotherMatch(first: Player, schedule: seq<seq<Wake>>, k: nat,
                        ghost start: State, ghost before: seq<Send>, ghost killed: seq<Kill>, ghost past: seq<Run>)
      returns (phase: Phase, received: bool, ghost runs: seq<Run>)
      requires Wired() && Shape(Snapshot(Playing, false).board) && |past| == k < |schedule|
      requires Opens(past, start, 0, schedule, Snapshot(Playing, false), first)
      requires sent == before + AllSent(past) && kills == killed + AllKills(past)
      modifies Repr()
      ensures Shape(Snapshot(Playing, false).board)
      ensures |runs| == k + 1 && Played(runs, start, 0, schedule)
      ensures sent == before + AllSent(runs) && kills == killed + AllKills(runs)
      ensures Snapshot(phase, received) == runs[k].st && phase == runs[k].st.phase
      ensures Again(runs[k]) ==>
                Opens(runs, start, 0, schedule, Snapshot(Playing, false), Other(runs[k].st.phase.status))
    {
      ghost var s := Snapshot(Playing, false);
      ghost var r;
      phase, received, r := PlayMatch(first, schedule[k]);
      PlayedSnoc(past, start, 0, schedule, s, r);
      AllSentSnoc(before, killed, past, r);
      runs := past + [r];
    }

    method PlayMatch(first: Player, wakes: seq<Wake>) returns (phase: Phase, received: bool, ghost r: Run)
      requires Wired() && Shape(Snapshot(Playing, false).board)
      modifies Repr()
      ensures Shape(Snapshot(Playing, false).board)
      ensures r == Play(Begin(old(Snapshot(Playing, false)), first), wakes)
      ensures Snapshot(phase, received) == r.st && sent == old(sent) + r.log && kills == old(kills) + r.kills
      ensures phase == r.st.phase && Snapshot(Playing, false) == r.st.(phase := Playing, received := false)
    {
      r := Play(Begin(Snapshot(Playing, false), first), wakes);
      phase, received := ServerLoop(first, wakes);
    }

    method StartMatch(firstPlayerIndex: Player)
      requires Wired() && Shape(Snapshot(Playing, false).board)
      modifies this, players[0], players[1]
      ensures var r := Begin(old(Snapshot(Playing, false)), firstPlayerIndex);
              Snapshot(Playing, false) == r.st && sent == old(sent) + r.log
      ensures kills == old(kills)
    {
      UpdateState(firstPlayerIndex);
      players[currentPlayer].timeoutCounter := 0;
      players[Other(currentPlayer)].timeoutCounter := 0;
      QueueSend(currentPlayer, GameStart(NO_UPDATE));
      wasCtrlCPressed := false;
    }

    /** One blocked receive and what follows it, up to the next one. */
    method Iteration(before: Phase, received: bool, w: Wake, kernels: seq<array2<char>>)
      returns (phase: Phase, atLeastOnePoint: bool)
      requires Wired() && Shape(Snapshot(before, received).board) && (before.Playing? || before.Deciding?)
      requires KernelShapes(kernels) && forall k :: 0 <= k < 4 ==> kernels[k] != field.matrix
      modifies Repr()
      ensures var r := Step(old(Snapshot(before, received)), w);
              Stepped(Snapshot(phase, atLeastOnePoint), sent) == Stepped(r.state, old(sent) + r.sends)
      ensures kills == old(kills) + Kills(old(Snapshot(before, received)), w)
    {
      phase, atLeastOnePoint := before, received;
      var got := QueueReceive(w);
      if got.Terminated? { return Killed, received; }
      if got.StillBlocked? { return; }
      if before.Deciding? {
        phase := OnAnswer(received, w.taken);
        return;
      }
      if disconnectionHappened {
        phase := OnDisconnection(received, w.late);
        return;
      }
      if timeoutHappened {
        phase := OnTimeout(received);
        return;
      }
      phase := OnMove(received, got.request.move, kernels);
      atLeastOnePoint := true;
    }
  }

  lemma PlayNext(r: Run, ws: seq<Wake>, i: nat)
    requires Good(r.st) && i < |ws|
    ensures Play(r, ws[..i + 1]) == RunStep(Play(r, ws[..i]), ws[i])
  {
    assert ws[..i + 1][..i] == ws[..i];
  }

  lemma Extended<T>(before: seq<T>, log: seq<T>, sends: seq<T>)
    ensures before + (log + sends) == before + log + sends
  {
  }

  lemma Frozen(r: Run, w: Wake)
    requires Good(r.st) && !Active(r.st)
    ensures RunStep(r, w) == r
  {
    assert r.log + [] == r.log && r.kills + [] == r.kills;
  }

  lemma {:induction false} FinishedStays(r: Run, ws: seq<Wake>, i: nat)
    requires Good(r.st) && i <= |ws| && (i < |ws| ==> !Active(Play(r, ws[..i]).st))
    ensures Play(r, ws) == Play(r, ws[..i])
    decreases |ws|
  {
    assert ws[..|ws|] == ws;
    if i < |ws| {
      var n := |ws| - 1;
      assert ws[..n][..i] == ws[..i];
      FinishedStays(r, ws[..n], i);
      Frozen(Play(r, ws[..n]), ws[n]);
      PlayNext(r, ws, n);
    }
  }
}
