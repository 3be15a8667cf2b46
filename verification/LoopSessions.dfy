/** The loops of both clients inside a session: they act as in some interleaving of it, so
    that the theorems on sessions are about two running loops. */
module LoopSessions {
  import opened Messages
  import opened Match
  import opened Replica
  import opened Protocol
  import opened FairServer
  import opened Writes
  import opened Verdicts
  import opened ClientRuns

  /** Something that is not up to a client's loop, or one iteration of it. */
  datatype Drive =
    | World(e: Event)                     // the server wakes, a match begins, a client is interrupted
    | Turn(k: Player, i: nat, d: Delivery) // client k takes message i, which is d's, and its player reacts

  predicate Outside(e: Event) { e.Begins? || e.a.Wakes? || e.a.Quits? }

  ghost predicate Ticks(j: Joint, k: Player, i: nat, d: Delivery)
    requires WellFormed(j)
  {
    Enabled(j, Receives(k, i)) && j.queues[k][i] == d.msg
  }

  /** The same system with the iteration of `ClientProcess.ClientLoop` for the clients. */
  ghost function LoopNext(j: Joint, x: Drive): (j': Joint)
    requires WellFormed(j)
    ensures WellFormed(j')
  {
    match x
    case World(e) => if Outside(e) then AnyNext(j, e) else j
    case Turn(k, i, d) =>
      if !Ticks(j, k, i, d) then j
      else
        var r := Iterate(j.clients[k], d);
        IterateKeeps(j.clients[k], d);
        j.(clients := j.clients[k := r.state], queues := j.queues[k := RemoveAt(j.queues[k], i) + r.sends],
        seen := j.seen[k := j.seen[k] || d.msg.GameEnd?])
  }

  lemma IterateKeeps(c: ClientState, d: Delivery)
    requires c.columns < 0x8000_0000
    ensures var r := Iterate(c, d).state; r.own == c.own && r.opponent == c.opponent && r.columns == c.columns
  {
  }

  ghost function LoopReach(j: Joint, xs: seq<Drive>): (j': Joint)
    requires WellFormed(j)
    ensures WellFormed(j')
  {
    if xs == [] then j else LoopNext(LoopReach(j, xs[..|xs| - 1]), xs[|xs| - 1])
  }

  /** Equal but for the alarms, which the interleavings leave to the player's answers. */
  predicate Alike(c: ClientState, d: ClientState) { d == c.(alarmed := d.alarmed) }

  ghost predicate SameWorld(j: Joint, t: Joint)
    requires WellFormed(j)
  {
    && WellFormed(t) && t.server == j.server && t.reference == j.reference && t.queues == j.queues && t.seen == j.seen
    && Alike(j.clients[0], t.clients[0]) && Alike(j.clients[1], t.clients[1])
  }

  /** The answer that an iteration gives, if any. */
  function AnswerOf(c: ClientState, d: Delivery): Option<Answer>
    requires c.columns < 0x8000_0000
  {
    if Prompts(d.msg) then FirstAnswer(d.inputs, c.columns, c.alarmed || d.alarm)
    else if d.msg.GameEnd? && d.msg.reply.winner then Some(if d.confirm then Restart else Stop)
    else None
  }

  /** One iteration of the loop is the client taking the message and, if it is asked and
      answers, its player answering. */
  lemma TurnIsTwo(j: Joint, t: Joint, k: Player, i: nat, d: Delivery) returns (events: seq<Event>)
    requires WellFormed(j) && SameWorld(j, t) && Ticks(j, k, i, d)
    ensures |events| == if AnswerOf(j.clients[k], d).None? then 1 else 2
    ensures events[0] == Acts(Receives(k, i))
    ensures |events| == 2 ==> events[1] == Acts(Answers(k, AnswerOf(j.clients[k], d).value))
    ensures SameWorld(LoopNext(j, Turn(k, i, d)), AnyReach(t, events))
  {
    var a := AnswerOf(j.clients[k], d);
    if a.None? {
      events := [Acts(Receives(k, i))];
      One(t, events[0]);
      TakesAlike(j, t, k, i, d);
    } else {
      events := [Acts(Receives(k, i)), Acts(Answers(k, a.value))];
      Two(t, events[0], events[1]);
      AnswersAlike(j, t, k, i, d, a.value);
    }
  }

  lemma TakesAlike(j: Joint, t: Joint, k: Player, i: nat, d: Delivery)
    requires WellFormed(j) && SameWorld(j, t) && Ticks(j, k, i, d) && AnswerOf(j.clients[k], d).None?
    ensures SameWorld(LoopNext(j, Turn(k, i, d)), AnyNext(t, Acts(Receives(k, i))))
  {
    TakenAlike(j.clients[k], t.clients[k], d);
    assert RemoveAt(j.queues[k], i) + [] == RemoveAt(j.queues[k], i);
  }

  lemma AnswersAlike(j: Joint, t: Joint, k: Player, i: nat, d: Delivery, a: Answer)
    requires WellFormed(j) && SameWorld(j, t) && Ticks(j, k, i, d) && AnswerOf(j.clients[k], d) == Some(a)
    ensures SameWorld(LoopNext(j, Turn(k, i, d)), AnyNext(AnyNext(t, Acts(Receives(k, i))), Acts(Answers(k, a))))
  {
    TakenAlike(j.clients[k], t.clients[k], d);
    assert Enabled(AnyNext(t, Acts(Receives(k, i))), Answers(k, a));
  }

  /** An iteration in two steps, whatever the alarm of the other copy. */
  ghost predicate InTwo(c: ClientState, e: ClientState, d: Delivery)
    requires c.columns < 0x8000_0000
  {
    var a, r, t := AnswerOf(c, d), Iterate(c, d), Take(e, d.msg);
    if a.None? then r.sends == [] && Alike(r.state, t)
    else
      && (a.value.Column? ==> t.mode.Asking? && 0 <= a.value.column < c.columns)
      && (a.value == GaveUp ==> t.mode.Asking?) && (a.value == Restart || a.value == Stop ==> t.mode.Confirming?)
      && r.sends == React(t, a.value).sends && Alike(r.state, React(t, a.value).state)
  }

  lemma TakenAlike(c: ClientState, e: ClientState, d: Delivery)
    requires c.columns < 0x8000_0000 && c.mode.Ready? && Alike(c, e)
    ensures InTwo(c, e, d)
  {
    if Prompts(d.msg) {
      PromptInTwo(c, e, d);
    } else if d.msg.GameEnd? {
      EndInTwo(c, e, d);
    } else {
      OtherInTwo(c, e, d);
    }
  }

  lemma PromptInTwo(c: ClientState, e: ClientState, d: Delivery)
    requires c.columns < 0x8000_0000 && c.mode.Ready? && Alike(c, e) && Prompts(d.msg)
    ensures InTwo(c, e, d)
  {
  }

  lemma EndInTwo(c: ClientState, e: ClientState, d: Delivery)
    requires c.columns < 0x8000_0000 && c.mode.Ready? && Alike(c, e) && d.msg.GameEnd?
    ensures InTwo(c, e, d)
  {
  }

  lemma OtherInTwo(c: ClientState, e: ClientState, d: Delivery)
    requires c.columns < 0x8000_0000 && c.mode.Ready? && Alike(c, e) && !Prompts(d.msg) && !d.msg.GameEnd?
    ensures InTwo(c, e, d)
  {
  }

  lemma WorldAlike(j: Joint, t: Joint, e: Event)
    requires WellFormed(j) && SameWorld(j, t) && Outside(e)
    ensures SameWorld(AnyNext(j, e), AnyNext(t, e))
  {
  }

  /** Whatever two client loops do in a session, some interleaving of the session does. */
  lemma {:induction false} LoopsAreSessions(j: Joint, xs: seq<Drive>) returns (events: seq<Event>)
    requires WellFormed(j)
    ensures SameWorld(LoopReach(j, xs), AnyReach(j, events))
  {
    if xs == [] {
      events := [];
    } else {
      var n := |xs| - 1;
      var before := LoopsAreSessions(j, xs[..n]);
      var t := LoopReach(j, xs[..n]);
      var more := DriveAlike(t, AnyReach(j, before), xs[n]);
      AnyMore(j, before, more);
      events := before + more;
    }
  }

  lemma DriveAlike(j: Joint, t: Joint, x: Drive) returns (events: seq<Event>)
    requires WellFormed(j) && SameWorld(j, t)
    ensures SameWorld(LoopNext(j, x), AnyReach(t, events))
  {
    events := [];
    match x
    case World(e) =>
      if Outside(e) {
        WorldAlike(j, t, e);
        events := [e];
        assert events[..0] == [];
      }
    case Turn(k, i, d) => if Ticks(j, k, i, d) { events := TurnIsTwo(j, t, k, i, d); }
  }

  /** What client `k` was delivered. */
  ghost function Delivered(j: Joint, xs: seq<Drive>, k: Player): seq<Delivery>
    requires WellFormed(j)
  {
    if xs == [] then []
    else
      var n := |xs| - 1;
      var x := xs[n];
      Delivered(j, xs[..n], k) + if Ticking(LoopReach(j, xs[..n]), x, k) then [x.d] else []
  }

  predicate Uninterrupted(xs: seq<Drive>, k: Player) {
    forall n :: 0 <= n < |xs| ==> !(xs[n].World? && xs[n].e.Acts? && xs[n].e.a.Quits? && xs[n].e.a.k == k)
  }

  /** The client that runs its loop in a session is, at any time, what `ClientLoop` makes
      of the messages it was delivered. */
  lemma {:induction false} LoopServes(j: Joint, xs: seq<Drive>, k: Player)
    requires WellFormed(j) && Uninterrupted(xs, k)
    ensures LoopReach(j, xs).clients[k] == Serve(j.clients[k], Delivered(j, xs, k)).state
  {
    if xs == [] {
    } else {
      var n := |xs| - 1;
      LoopServes(j, xs[..n], k);
      ServesOne(j.clients[k], Delivered(j, xs[..n], k), LoopReach(j, xs[..n]), xs[n], k);
    }
  }

  lemma ServesOne(c: ClientState, script: seq<Delivery>, t: Joint, x: Drive, k: Player)
    requires WellFormed(t) && c.columns < 0x8000_0000 && t.clients[k] == Serve(c, script).state
    requires !(x.World? && x.e.Acts? && x.e.a.Quits? && x.e.a.k == k)
    ensures LoopNext(t, x).clients[k] == Serve(c, script + if Ticking(t, x, k) then [x.d] else []).state
  {
    LoopStep(t, x, k);
    if Ticking(t, x, k) { ServeSnoc(c, script, x.d); } else { assert script + [] == script; }
  }

  /** One iteration of client k's loop, or none. */
  lemma LoopStep(j: Joint, x: Drive, k: Player)
    requires WellFormed(j) && !(x.World? && x.e.Acts? && x.e.a.Quits? && x.e.a.k == k)
    ensures LoopNext(j, x).clients[k] == if Ticking(j, x, k) then Iterate(j.clients[k], x.d).state else j.clients[k]
    ensures Ticking(j, x, k) ==> j.clients[k].mode.Ready?
  {
  }

  ghost predicate Ticking(j: Joint, x: Drive, k: Player)
    requires WellFormed(j)
  {
    x.Turn? && x.k == k && Ticks(j, k, x.i, x.d)
  }

  /** So the theorems on sessions are about two running loops: for instance, what the
      return value of `ClientLoop` tells about the server. */
  lemma {:induction false} LoopVerdict(j: Joint, s: State, first: Player, xs: seq<Drive>, k: Player)
    requires SessionStart(j, s, first) && Uninterrupted(xs, k)
    ensures var t := LoopReach(j, xs);
            Verdict(t.server.phase, k == t.server.current, Serve(j.clients[k], Delivered(j, xs, k)).state.mode)
  {
    LoopServes(j, xs, k);
    LoopVerdictAt(j, s, first, xs, k);
  }

  lemma LoopVerdictAt(j: Joint, s: State, first: Player, xs: seq<Drive>, k: Player)
    requires SessionStart(j, s, first)
    ensures VerdictAt(LoopReach(j, xs), k)
  {
    var events := LoopsAreSessions(j, xs);
    VerdictsAgree(j, s, first, events, k);
    VerdictCopies(LoopReach(j, xs), AnyReach(j, events), k);
  }

  ghost predicate VerdictAt(t: Joint, k: Player)
    requires WellFormed(t)
  {
    Verdict(t.server.phase, k == t.server.current, t.clients[k].mode)
  }

  lemma VerdictCopies(j: Joint, t: Joint, k: Player)
    requires WellFormed(j) && SameWorld(j, t) && VerdictAt(t, k)
    ensures VerdictAt(j, k)
  {
  }
}
