/** The messages exchanged by the server and its two clients, and the typed
    queue that carries them. */
module Messages {

  const MSG_ERROR := 50
  const MSG_SERVER_ACK := 170
  const MSG_GAME_END := 180
  const MSG_CLIENT_MOVE := 190
  const MSG_TURN_START := 200
  const MSG_GAME_START := 220

  datatype Option<+T> = None | Some(value: T)

  /** Index of a player: 0 is the first client that connected. */
  type Player = p: int | 0 <= p < 2

  function Other(p: Player): Player { 1 - p }

  type Int32 = x: int | -0x8000_0000 <= x < 0x8000_0000

  /** The text of an error message; one constructor per text the server sends. */
  datatype ErrorText =
    | TurnLost | InvalidMove | LostByInactivity
    | WonByForfeit | EndedByInactivity
    | OpponentDisconnected | OpponentStops

  datatype Reply = Reply(row: nat, column: nat, winner: bool, draw: bool, endGame: bool, updateField: bool)

  datatype Request = Request(move: Int32, restartMatch: bool)

  datatype Message =
    | Error(code: int, text: ErrorText)
    | ServerAck(reply: Reply)
    | GameEnd(reply: Reply)
    | ClientMove(request: Request)
    | TurnStart(reply: Reply)
    | GameStart(reply: Reply)
  {
    function Type(): int {
      match this
      case Error(_, _) => MSG_ERROR
      case ServerAck(_) => MSG_SERVER_ACK
      case GameEnd(_) => MSG_GAME_END
      case ClientMove(_) => MSG_CLIENT_MOVE
      case TurnStart(_) => MSG_TURN_START
      case GameStart(_) => MSG_GAME_START
    }
  }

  /** A message that the server puts on the queue of player `to`. */
  datatype Send = Send(to: Player, msg: Message)

  const NO_UPDATE := Reply(0, 0, false, false, false, false)

  /** Whether a receive of type `t` may return a message of type `mtype`. */
  predicate Eligible(mtype: int, t: int) {
    t == 0 || (t > 0 && mtype == t) || (t < 0 && mtype <= -t)
  }

  /** Whether a receive of type `t` returns position `i` of the queue: the first
      message of a positive type; the first message of the lowest type not above
      the absolute value of a negative one. */
  ghost predicate Takes(q: seq<Message>, t: int, i: nat) {
    && i < |q|
    && Eligible(q[i].Type(), t)
    && forall j :: 0 <= j < |q| && j != i && Eligible(q[j].Type(), t) ==>
                     if t < 0 && q[j].Type() != q[i].Type() then q[i].Type() < q[j].Type() else i < j
  }

  function RemoveAt<T>(q: seq<T>, i: nat): seq<T>
    requires i < |q|
  {
    q[..i] + q[i + 1..]
  }

  /** Spelled out: type 0 returns the head of the queue, a positive type the first message
      of that type, a negative one the first of those of the lowest type. */
  lemma TakesExact(q: seq<Message>, t: int, i: nat)
    ensures Takes(q, t, i) <==>
            && i < |q|
            && (t == 0 ==> i == 0)
            && (t > 0 ==> q[i].Type() == t && forall j :: 0 <= j < i ==> q[j].Type() != t)
            && (t < 0 ==> q[i].Type() <= -t && (forall j :: 0 <= j < i ==> q[j].Type() > q[i].Type())
                          && forall j :: i < j < |q| ==> q[j].Type() >= q[i].Type())
  {
    if Takes(q, t, i) && t == 0 && i > 0 { assert Eligible(q[0].Type(), t); }
    if Takes(q, t, i) && t < 0 {
      forall j | 0 <= j < |q| && j != i ensures if j < i then q[j].Type() > q[i].Type() else q[j].Type() >= q[i].Type() {
        assert Eligible(q[j].Type(), t) <==> q[j].Type() <= -t;
      }
    }
  }

  /** The order in which a client takes what is pending. */
  function Rank(m: Message): nat {
    match m
    case Error(_, _) => 0
    case ServerAck(_) => 1
    case GameEnd(_) => 2
    case ClientMove(_) => 3
    case TurnStart(_) => 4
    case GameStart(_) => 5
  }

  /** A client's receive returns the first message of the lowest rank: it may return any kind,
      an error before all others, its own move before a turn but after a `GAME_END`. */
  lemma ClientOrder(q: seq<Message>, i: nat)
    ensures Takes(q, -MSG_GAME_START, i) <==>
            && i < |q| && (forall j :: 0 <= j < i ==> Rank(q[j]) > Rank(q[i]))
            && forall j :: i < j < |q| ==> Rank(q[j]) >= Rank(q[i])
  {
    TakesExact(q, -MSG_GAME_START, i);
    if i < |q| {
      forall j | 0 <= j < |q| ensures Rank(q[j]) < Rank(q[i]) <==> q[j].Type() < q[i].Type() {}
      forall j | 0 <= j < |q| ensures Rank(q[j]) == Rank(q[i]) <==> q[j].Type() == q[i].Type() {}
    }
  }

  /** On a queue in strictly ascending type order the lowest-type receive is
      first in, first out. */
  lemma AscendingIsFifo(q: seq<Message>, t: int, i: nat)
    requires t < 0 && forall a, b :: 0 <= a < b < |q| ==> q[a].Type() < q[b].Type()
    requires Takes(q, t, i)
    ensures i == 0
  {
    assert Eligible(q[0].Type(), t);
  }

  /** For a client, exactly: as it takes message after message, each is the oldest one
      left if and only if the types never descend along the queue. */
  lemma FifoExactly(q: seq<Message>)
    ensures (forall k :: 0 <= k < |q| ==> Takes(q[k..], -MSG_GAME_START, 0))
            <==> forall a, b :: 0 <= a < b < |q| ==> q[a].Type() <= q[b].Type()
  {
    if forall k :: 0 <= k < |q| ==> Takes(q[k..], -MSG_GAME_START, 0) {
      forall a, b | 0 <= a < b < |q| ensures q[a].Type() <= q[b].Type() {
        assert Takes(q[a..], -MSG_GAME_START, 0) && q[a..][b - a] == q[b];
      }
    }
  }

  /** One message queue. */
  class MessageQueue {
    var messages: seq<Message>

    constructor ()
      ensures messages == []
    {
      messages := [];
    }

    method SendGame(m: Message)
      modifies this
      ensures messages == old(messages) + [m]
    {
      messages := messages + [m];
    }

    method SendError(code: int, text: ErrorText)
      modifies this
      ensures messages == old(messages) + [Error(code, text)]
    {
      messages := messages + [Error(code, text)];
    }

    /** A receive of type `t`; None stands for the call that would block. */
    method Receive(t: int) returns (r: Option<Message>)
      modifies this
      ensures r.None? ==> messages == old(messages) &&
                          forall i :: 0 <= i < |messages| ==> !Eligible(messages[i].Type(), t)
      ensures r.Some? ==> exists i: nat :: Takes(old(messages), t, i) && r.value == old(messages)[i] &&
                                      messages == RemoveAt(old(messages), i)
    {
      var best := Find(messages, t);
      match best {
        case None => r := None;
        case Some(i) =>
          r := Some(messages[i]);
          messages := RemoveAt(messages, i);
      }
    }
  }

  /** The search for the message that a receive of type `t` returns. */
  method Find(q: seq<Message>, t: int) returns (best: Option<nat>)
    ensures best.None? <==> forall i :: 0 <= i < |q| ==> !Eligible(q[i].Type(), t)
    ensures best.Some? ==> Takes(q, t, best.value)
  {
    best := None;
    for i := 0 to |q|
      invariant best.None? <==> forall j :: 0 <= j < i ==> !Eligible(q[j].Type(), t)
      invariant best.Some? ==> best.value < i && Takes(q[..i], t, best.value)
    {
      if Eligible(q[i].Type(), t) &&
         (best.None? || (t < 0 && q[i].Type() < q[best.value].Type())) {
        best := Some(i);
      }
    }
    assert q[..|q|] == q;
  }
}
