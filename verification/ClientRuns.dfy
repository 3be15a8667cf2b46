/** The client's loop over any script of messages and inputs: what each message makes it
    send and where it leads. */
module ClientRuns {
  import opened Messages
  import opened Grid
  import opened Replica

  // ----- What an iteration of the loop is to do

  predicate AllBlank(cells: seq<seq<char>>) {
    forall i, j :: 0 <= i < |cells| && 0 <= j < |cells[i]| ==> cells[i][j] == BLANK
  }

  predicate SameShape(a: seq<seq<char>>, b: seq<seq<char>>) {
    |a| == |b| && forall i :: 0 <= i < |a| ==> |a[i]| == |b[i]|
  }

  /** At most the one cell has changed, to `x`. */
  predicate Inked(a: seq<seq<char>>, b: seq<seq<char>>, row: nat, column: nat, x: char) {
    && SameShape(a, b)
    && forall i, j :: 0 <= i < |a| && 0 <= j < |a[i]| ==> b[i][j] == if i == row && j == column then x else a[i][j]
  }

  /** The messages that ask the player for a column. */
  predicate Prompts(m: Message) { m.GameStart? || m.TurnStart? || (m.Error? && m.code == 400) }

  /** The first reading that is an alarm or the number of a column. */
  predicate FirstUsable(inputs: seq<Input>, columns: nat, i: nat) {
    && i < |inputs|
    && (inputs[i].Number? ==> 1 <= inputs[i].n <= columns)
    && forall j :: 0 <= j < i ==> inputs[j].Number? && !(1 <= inputs[j].n <= columns)
  }

  /** A prompt: with an alarm from before, the first reading only ends the turn; otherwise
      the first usable reading does, and a number n makes the client send move n - 1. No
      reading, no answer. An alarm is forgotten once it ended a turn. */
  ghost predicate Prompted(c: ClientState, d: Delivery, sent: seq<Message>, e: ClientState) {
    if c.alarmed || d.alarm then
      sent == [] && (if d.inputs == [] then e.mode.Asking? && e.alarmed else e.mode.Ready? && !e.alarmed)
    else
      && !e.alarmed
      && (e.mode.Asking? ==> sent == [] && forall i: nat :: !FirstUsable(d.inputs, c.columns, i))
      && (!e.mode.Asking? ==>
            e.mode.Ready? &&
            exists i: nat :: FirstUsable(d.inputs, c.columns, i) && Sends(d.inputs[i], sent))
  }

  /** An alarm sends nothing, the number n the move n - 1. */
  predicate Sends(input: Input, sent: seq<Message>) {
    match input
    case Alarm => sent == []
    case Number(n) =>
      |sent| == 1 && sent[0].ClientMove? && sent[0].request.move == n - 1 && !sent[0].request.restartMatch
  }

  /** An error: its return value, if it ends the loop. */
  predicate Failed(code: int, mode: Mode) {
    if code == 408 then mode.Ready?
    else if code == 450 || code == 600 then mode == Left(-3)
    else if code == 601 then mode == Left(-5)
    else if code == 602 then mode == Left(-8)
    else mode.Aborted?
  }

  /** The end of a match: the winner is asked and sends the answer, and stays, on a blank
      replica, exactly if the player confirms; after a draw the client leaves; the loser
      stays, on a blank replica. */
  predicate Concluded(c: ClientState, r: Reply, confirm: bool, sent: seq<Message>, e: ClientState) {
    && SameShape(c.cells, e.cells)
    && sent == (if r.winner then [ClientMove(Request(0, confirm))] else [])
    && (e.mode.Ready? || e.mode.Left?)
    && (e.mode.Ready? <==> (if r.winner then confirm else !r.draw))
    && (e.mode.Left? ==> e.mode == Left(if r.winner then -7 else -4))
    && (e.mode.Ready? && (r.winner || r.endGame) ==> AllBlank(e.cells))
    && (!(e.mode.Ready? && (r.winner || r.endGame)) ==>
          if r.updateField then Inked(c.cells, e.cells, r.row, r.column, c.opponent) else e.cells == c.cells)
  }

  /** What one iteration sends and where it leads, message by message. */
  ghost predicate Reaction(c: ClientState, d: Delivery, sent: seq<Message>, e: ClientState) {
    && e.own == c.own && e.opponent == c.opponent && e.columns == c.columns
    && (Prompts(d.msg) ==> Prompted(c, d, sent, e))
    && (!Prompts(d.msg) ==> e.alarmed == (c.alarmed || d.alarm))
    && match d.msg
       case Error(code, _) => e.cells == c.cells && (code != 400 ==> sent == [] && Failed(code, e.mode))
       case ServerAck(r) => sent == [] && e.mode.Ready? && Inked(c.cells, e.cells, r.row, r.column, c.own)
       case TurnStart(r) => Inked(c.cells, e.cells, r.row, r.column, c.opponent)
       case GameStart(_) => e.cells == c.cells
       case ClientMove(_) => sent == [] && e.mode.Ready? && e.cells == c.cells
       case GameEnd(r) => Concluded(c, r, d.confirm, sent, e)
  }

  // ----- It does

  lemma IterateReacts(c: ClientState, d: Delivery)
    requires c.columns < 0x8000_0000 && c.mode.Ready?
    ensures Reaction(c, d, Iterate(c, d).sends, Iterate(c, d).state)
  {
    if Prompts(d.msg) {
      PromptReacts(c, d);
    } else if d.msg.GameEnd? {
      EndReacts(c, d);
    } else {
      OtherReacts(c, d);
    }
  }

  lemma PromptReacts(c: ClientState, d: Delivery)
    requires c.columns < 0x8000_0000 && c.mode.Ready? && Prompts(d.msg)
    ensures Reaction(c, d, Iterate(c, d).sends, Iterate(c, d).state)
  {
    PromptForm(c, d);
    PromptedBy(c, d, Iterate(c, d).sends, Iterate(c, d).state);
  }

  lemma PromptedBy(c: ClientState, d: Delivery, sent: seq<Message>, e: ClientState)
    requires c.columns < 0x8000_0000
    requires var a := FirstAnswer(d.inputs, c.columns, c.alarmed || d.alarm);
             && (a.None? ==> sent == [] && e.mode.Asking? && e.alarmed == (c.alarmed || d.alarm))
             && (a.Some? && a.value == GaveUp ==> sent == [] && e.mode.Ready? && !e.alarmed)
             && (a.Some? && a.value.Column? ==>
                   sent == [ClientMove(Request(a.value.column, false))] && e.mode.Ready? && e.alarmed == (c.alarmed || d.alarm))
    ensures Prompted(c, d, sent, e)
  {
    var a := FirstAnswer(d.inputs, c.columns, c.alarmed || d.alarm);
    var n := AnswerMeans(d.inputs, c.columns, c.alarmed || d.alarm);
    if !(c.alarmed || d.alarm) && a.Some? {
      var i := AnswerAt(d.inputs, c.columns, a.value);
      assert FirstUsable(d.inputs, c.columns, i) && Sends(d.inputs[i], sent);
    }
  }

  lemma AnswerAt(inputs: seq<Input>, columns: nat, a: Answer) returns (i: nat)
    requires columns < 0x8000_0000 && FirstAnswer(inputs, columns, false) == Some(a)
    ensures FirstUsable(inputs, columns, i)
    ensures if inputs[i].Alarm? then a == GaveUp else a.Column? && a.column == inputs[i].n - 1
  {
    i := AnswerMeans(inputs, columns, false);
  }

  lemma PromptForm(c: ClientState, d: Delivery)
    requires c.columns < 0x8000_0000 && c.mode.Ready? && Prompts(d.msg)
    ensures var a, r := FirstAnswer(d.inputs, c.columns, c.alarmed || d.alarm), Iterate(c, d);
            && r.state.own == c.own && r.state.opponent == c.opponent && r.state.columns == c.columns
            && (a.None? ==> r.sends == [] && r.state.mode.Asking? && r.state.alarmed == (c.alarmed || d.alarm))
            && (a.Some? && a.value == GaveUp ==> r.sends == [] && r.state.mode.Ready? && !r.state.alarmed)
            && (a.Some? && a.value.Column? ==>
                  r.sends == [ClientMove(Request(a.value.column, false))] && r.state.mode.Ready? && r.state.alarmed == (c.alarmed || d.alarm))
            && (if d.msg.TurnStart? then Inked(c.cells, r.state.cells, d.msg.reply.row, d.msg.reply.column, c.opponent)
                else r.state.cells == c.cells)
  {
  }

  lemma EndReacts(c: ClientState, d: Delivery)
    requires c.columns < 0x8000_0000 && c.mode.Ready? && d.msg.GameEnd?
    ensures Reaction(c, d, Iterate(c, d).sends, Iterate(c, d).state)
  {
    EndConcludes(c, d, Iterate(c, d));
  }

  lemma EndConcludes(c: ClientState, d: Delivery, r: Reacted)
    requires c.columns < 0x8000_0000 && c.mode.Ready? && d.msg.GameEnd? && r == Iterate(c, d)
    ensures var e := r.state;
            && Concluded(c, d.msg.reply, d.confirm, r.sends, e)
            && e.own == c.own && e.opponent == c.opponent && e.columns == c.columns && e.alarmed == (c.alarmed || d.alarm)
  {
  }

  lemma OtherReacts(c: ClientState, d: Delivery)
    requires c.columns < 0x8000_0000 && c.mode.Ready? && !Prompts(d.msg) && !d.msg.GameEnd?
    ensures Reaction(c, d, Iterate(c, d).sends, Iterate(c, d).state)
  {
  }

  lemma ServeSnoc(c: ClientState, script: seq<Delivery>, d: Delivery)
    requires c.columns < 0x8000_0000
    ensures var before, after := Serve(c, script), Serve(c, script + [d]);
            if before.state.mode.Ready?
            then after == Reacted(Iterate(before.state, d).state, before.sends + Iterate(before.state, d).sends)
            else after == before
  {
    assert (script + [d])[..|script|] == script;
  }

  /** What the last message of a script makes the loop send and where it leads. A loop that
      waits for its player or has ended takes nothing. */
  lemma LastDelivery(c: ClientState, script: seq<Delivery>, d: Delivery) returns (sent: seq<Message>)
    requires c.columns < 0x8000_0000
    ensures Serve(c, script + [d]).sends == Serve(c, script).sends + sent
    ensures if Serve(c, script).state.mode.Ready? then Reaction(Serve(c, script).state, d, sent, Serve(c, script + [d]).state)
            else sent == [] && Serve(c, script + [d]).state == Serve(c, script).state
  {
    var b := Serve(c, script);
    ServeSnoc(c, script, d);
    if b.state.mode.Ready? {
      IterateReacts(b.state, d);
      sent := Iterate(b.state, d).sends;
    } else {
      sent := [];
    }
  }

  /** The winner is asked: the last message sent is the request with the player's answer.
      Whoever confirms stays, on a blank replica; whoever does not leaves with -7. */
  lemma WinnerAnswers(c: ClientState, script: seq<Delivery>, d: Delivery)
    requires c.columns < 0x8000_0000 && Serve(c, script).state.mode.Ready?
    requires d.msg.GameEnd? && d.msg.reply.winner
    ensures var before, after := Serve(c, script), Serve(c, script + [d]);
            && after.sends == before.sends + [ClientMove(Request(0, d.confirm))]
            && (after.state.mode.Ready? <==> d.confirm) && (after.state.mode == Left(-7) <==> !d.confirm)
            && (d.confirm ==> AllBlank(after.state.cells))
  {
    var sent := LastDelivery(c, script, d);
  }

  /** Once an error has ended the loop, with the return value of its code, the client sends
      and takes nothing more, whatever comes. */
  lemma FinalErrors(c: ClientState, script: seq<Delivery>, d: Delivery, more: seq<Delivery>)
    requires c.columns < 0x8000_0000 && Serve(c, script).state.mode.Ready?
    requires d.msg.Error? && d.msg.code in {450, 600, 601, 602}
    ensures Serve(c, script + [d] + more).sends == Serve(c, script).sends
    ensures Serve(c, script + [d] + more).state.cells == Serve(c, script).state.cells
    ensures Serve(c, script + [d] + more).state.mode == Left(if d.msg.code == 601 then -5 else if d.msg.code == 602 then -8 else -3)
  {
    var sent := LastDelivery(c, script, d);
    assert (script + [d] + more)[..|script| + 1] == script + [d];
    StoppedServes(c, script + [d] + more, |script| + 1);
  }

  // ----- Alarms

  /** Prompts that ended without a move, over a script. */
  function GivenUp(c: ClientState, script: seq<Delivery>): nat
    requires c.columns < 0x8000_0000
  {
    if script == [] then 0
    else
      var n := |script| - 1;
      GivenUp(c, script[..n]) + Count(GaveUpAt(Serve(c, script[..n]), script[n], Serve(c, script)))
  }

  function Count(b: bool): nat { if b then 1 else 0 }

  predicate GaveUpAt(before: Reacted, d: Delivery, after: Reacted) {
    before.state.mode.Ready? && Prompts(d.msg) && after.state.mode.Ready? && after.sends == before.sends
  }

  function AlarmsIn(inputs: seq<Input>): nat {
    if inputs == [] then 0 else AlarmsIn(inputs[1..]) + Count(inputs[0].Alarm?)
  }

  /** Every SIGALRM of a script. */
  function Alarms(script: seq<Delivery>): nat {
    if script == [] then 0
    else
      var d := script[|script| - 1];
      Alarms(script[..|script| - 1]) + Count(d.alarm) + AlarmsIn(d.inputs)
  }

  lemma {:induction false} AlarmCounted(inputs: seq<Input>, i: nat)
    requires i < |inputs| && inputs[i].Alarm?
    ensures AlarmsIn(inputs) >= 1
  {
    if i == 0 {
    } else {
      AlarmCounted(inputs[1..], i - 1);
    }
  }

  lemma ReactionAlarms(c: ClientState, d: Delivery, sent: seq<Message>, e: ClientState)
    requires c.mode.Ready? && Reaction(c, d, sent, e)
    ensures var gaveUp := Prompts(d.msg) && e.mode.Ready? && sent == [];
            && Count(gaveUp) + Count(e.alarmed) <= Count(c.alarmed) + Count(d.alarm) + AlarmsIn(d.inputs)
            && (!gaveUp ==> e.alarmed == (c.alarmed || d.alarm))
  {
    if Prompts(d.msg) && !(c.alarmed || d.alarm) && e.mode.Ready? {
      var i: nat :| FirstUsable(d.inputs, c.columns, i) && Sends(d.inputs[i], sent);
      if d.inputs[i].Alarm? { AlarmCounted(d.inputs, i); }
    }
  }

  lemma DeliveryAlarms(c: ClientState, script: seq<Delivery>, d: Delivery)
    requires c.columns < 0x8000_0000
    ensures var before, after := Serve(c, script), Serve(c, script + [d]);
            && Count(GaveUpAt(before, d, after)) + Count(after.state.alarmed) <= Count(before.state.alarmed) + Count(d.alarm) + AlarmsIn(d.inputs)
            && (before.state.mode.Ready? && !GaveUpAt(before, d, after) ==> after.state.alarmed == (before.state.alarmed || d.alarm))
            && (!before.state.mode.Ready? ==> after == before)
  {
    var sent := LastDelivery(c, script, d);
    var before, after := Serve(c, script), Serve(c, script + [d]);
    assert sent != [] ==> |after.sends| > |before.sends|;
    if before.state.mode.Ready? { ReactionAlarms(before.state, d, sent, after.state); }
  }

  lemma GivenUpSnoc(c: ClientState, script: seq<Delivery>, d: Delivery)
    requires c.columns < 0x8000_0000
    ensures GivenUp(c, script + [d]) == GivenUp(c, script) + Count(GaveUpAt(Serve(c, script), d, Serve(c, script + [d])))
    ensures Alarms(script + [d]) == Alarms(script) + Count(d.alarm) + AlarmsIn(d.inputs)
  {
    assert (script + [d])[..|script|] == script;
  }

  /** One alarm costs at most one turn: over any script the prompts given up, and the alarm
      still to be answered to, are no more than the alarms. */
  lemma {:induction false} AlarmCostsOne(c: ClientState, script: seq<Delivery>)
    requires c.columns < 0x8000_0000
    ensures GivenUp(c, script) + Count(Serve(c, script).state.alarmed) <= Count(c.alarmed) + Alarms(script)
  {
    if script == [] {
    } else {
      var n := |script| - 1;
      assert script[..n] + [script[n]] == script;
      AlarmCostsOne(c, script[..n]);
      GivenUpSnoc(c, script[..n], script[n]);
      DeliveryAlarms(c, script[..n], script[n]);
    }
  }

  /** An alarm is kept until it costs a turn: while the loop goes on and no turn was given
      up, it is still to be answered to exactly if one came before a prompt. */
  lemma {:induction false} AlarmIsKept(c: ClientState, script: seq<Delivery>)
    requires c.columns < 0x8000_0000 && Serve(c, script).state.mode.Ready? && GivenUp(c, script) == 0
    ensures Serve(c, script).state.alarmed <==> c.alarmed || exists i :: 0 <= i < |script| && script[i].alarm
  {
    if script == [] {
    } else {
      var n := |script| - 1;
      assert script[..n] + [script[n]] == script;
      GivenUpSnoc(c, script[..n], script[n]);
      DeliveryAlarms(c, script[..n], script[n]);
      AlarmIsKept(c, script[..n]);
      AlarmAmong(script, n);
    }
  }

  lemma AlarmAmong(script: seq<Delivery>, n: nat)
    requires |script| == n + 1
    ensures (exists i :: 0 <= i < |script| && script[i].alarm) <==>
            (exists i :: 0 <= i < n && script[..n][i].alarm) || script[n].alarm
  {
    if i :| 0 <= i < |script| && script[i].alarm {
      if i < n { assert script[..n][i].alarm; }
    }
    if i :| 0 <= i < n && script[..n][i].alarm { assert script[i].alarm; }
  }
}
