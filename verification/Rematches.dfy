/** Sessions of any number of matches with timeouts and every signal, in every
    interleaving: which messages of a match that was won may be pending, and exactly when
    a replica agrees with the board of a later match. */
module Rematches {
  import opened Messages
  import opened Match
  import opened Replica
  import opened Protocol
  import opened FairClients
  import opened FairServer
  import opened Writes
  import opened Coherence
  import opened Tokens

  // ----- A client keeps it

  lemma TakeTokens(j: Joint, k: Player, i: nat)
    requires BaseInv(j) && ClientInv(j, k) && Enabled(j, Receives(k, i))
    ensures TokenInv(Next(j, Receives(k, i)), k)
  {
    TokensWithout(j.queues[k], i);
  }

  lemma TakeTail(j: Joint, k: Player, i: nat)
    requires BaseInv(j) && ClientInv(j, k) && Enabled(j, Receives(k, i)) && Goes(j.server)
    ensures TailInv(Next(j, Receives(k, i)), k)
  {
    QueueTakes(Reference(j), j.queues[k], ViewOf(j, k), i);
    var j' := Next(j, Receives(k, i));
    assert Reference(j') == Reference(j) && ViewOf(j', k) == ViewOf(j, k) && j'.queues[k] == RemoveAt(j.queues[k], i);
  }

  lemma QueueTakes(board: seq<seq<char>>, q: seq<Message>, v: View, i: nat)
    requires EndsOk(q) && Sees(v) && (!NoEnd(q) ==> TailOk(board, q, v)) && Takes(q, -MSG_GAME_START, i)
    ensures var rest := RemoveAt(q, i);
            && EndsOk(rest) && (!NoEnd(rest) ==> TailOk(board, rest, v))
            && (q[i].GameEnd? && q[i].reply.winner ==> NoEnd(rest) && NoAcks(rest))
  {
    EndsWithout(q, i);
    if q[i].GameEnd? && q[i].reply.winner { WinIsLast(q, i); }
    if !NoEnd(RemoveAt(q, i)) {
      EndTakenFirst(q, i);
      TailWithout(board, q, v, i);
    }
  }

  /** After a win the winner has nothing left that ends or acknowledges. */
  lemma WinIsLast(q: seq<Message>, i: nat)
    requires EndsOk(q) && Takes(q, -MSG_GAME_START, i) && q[i].GameEnd? && q[i].reply.winner
    ensures NoEnd(RemoveAt(q, i)) && NoAcks(RemoveAt(q, i))
  {
    var rest := RemoveAt(q, i);
    assert Fresh(q, i + 1);
    forall n | 0 <= n < |rest| ensures !rest[n].GameEnd? && !rest[n].ServerAck? {
      RemovedAt(q, i, n);
      var m := if n < i then n else n + 1;
      assert Eligible(q[m].Type(), -MSG_GAME_START);
    }
  }

  /** As long as a GAME_END stays pending, no TURN_START is taken, and the older GAME_END first. */
  lemma EndTakenFirst(q: seq<Message>, i: nat)
    requires Takes(q, -MSG_GAME_START, i) && !NoEnd(RemoveAt(q, i))
    ensures !q[i].TurnStart? && !NoEnd(q)
    ensures q[i].GameEnd? ==> LaterEnd(q, i)
  {
    var rest := RemoveAt(q, i);
    var n :| 0 <= n < |rest| && rest[n].GameEnd?;
    RemovedAt(q, i, n);
    var g := if n < i then n else n + 1;
    assert q[g].GameEnd? && Eligible(q[g].Type(), -MSG_GAME_START);
  }

  lemma AnswerInv(j: Joint, k: Player, answer: Answer)
    requires BaseInv(j) && ClientInv(j, k) && Enabled(j, Answers(k, answer))
    ensures ClientInv(Next(j, Answers(k, answer)), k)
  {
    var c, q := j.clients[k], j.queues[k];
    var r := React(c, answer);
    if r.sends == [] {
      assert q + r.sends == q;
    } else {
      var m := r.sends[0];
      assert r.sends == [m];
      if Token(m) { assert NoToken(q); } else { TokensMore(q, [m]); }
      if Goes(j.server) {
        EndsMore(q, m);
        if !NoEnd(q) { TailMore(Reference(j), q, ViewOf(j, k), m); }
      }
    }
    assert Reference(Next(j, Answers(k, answer))) == Reference(j);
  }

  lemma ClientStep(j: Joint, a: Action, k: Player)
    requires SessionInv(j) && !a.Wakes? && Enabled(j, a)
    ensures ClientInv(Next(j, a), k)
  {
    assert Reference(Next(j, a)) == Reference(j) && ViewOf(Next(j, a), k) == ViewOf(j, k);
    if a.k == k {
      match a
      case Receives(_, i) =>
        TakeTokens(j, k, i);
        if Goes(j.server) { TakeTail(j, k, i); }
      case Answers(_, answer) => AnswerInv(j, k, answer);
      case Quits(_) =>
    }
  }

  lemma BeginInv(j: Joint)
    requires SessionInv(j)
    ensures SessionInv(FairNext(j, Rematches))
  {
    BeginWrites(j);
    if j.server.phase == Ended(0) || j.server.phase == Ended(1) {
      var j', p := FairNext(j, Rematches), Other(j.server.phase.status);
      var q, m := j.queues[p], GameStart(NO_UPDATE);
      assert Reference(j') == Reference(j);
      TokensMore(q, [m]);
      EndsMore(q, m);
      if !NoEnd(q) { TailMore(Reference(j), q, ViewOf(j, p), m); }
      assert ClientInv(j', p) && ClientInv(j', Other(p));
    }
  }

  lemma NextInv(j: Joint, e: Event)
    requires SessionInv(j)
    ensures SessionInv(AnyNext(j, e))
  {
    match e
    case Begins => BeginInv(j);
    case Acts(a) =>
      if Enabled(j, a) {
        if a.Wakes? {
          WakeInv(j, a);
        } else {
          NextWrites(j, a);
          ClientStep(j, a, 0);
          ClientStep(j, a, 1);
        }
      }
  }

  lemma SessionBegins(j: Joint, s: State, first: Player)
    requires SessionStart(j, s, first)
    ensures SessionInv(j)
  {
    StartWrites(j, s, first);
    assert NoEnd(j.queues[first]) && NoEnd(j.queues[Other(first)]);
  }

  lemma {:induction false} AnyReachInv(j: Joint, events: seq<Event>)
    requires SessionInv(j)
    ensures SessionInv(AnyReach(j, events))
  {
    if events == [] {
    } else {
      AnyReachInv(j, events[..|events| - 1]);
      NextInv(AnyReach(j, events[..|events| - 1]), events[|events| - 1]);
    }
  }
}
