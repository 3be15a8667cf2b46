/** The connection service and the registration of the players. */
module Connection {
  import opened Messages
  import opened Match

  const SIGUSR1 := 10
  const SIGUSR2 := 12

  /** A connection request as the service meets it: who asks, whether a game is on
      when it is read, and the queue created for the client (None if that failed). */
  datatype Request = Request(pid: int, name: string, inGame: bool, queueId: Option<int>)

  datatype Response =
    | Busy
    | Welcome(pid: int, queueId: int, signal: int, symbol: char, opponentSymbol: char)

  datatype Registered = Registered(pid: int, name: string, queueId: int, symbol: char)

  predicate Admitted(r: Request) { !r.inGame && r.queueId.Some? }

  /** The request gets an answer: all do but those for which no queue could be created. */
  predicate Answered(r: Request) { r.inGame || r.queueId.Some? }

  predicate IsWelcome(r: Response) { r.Welcome? }

  /** The elements for which `p` holds. */
  function Kept<T>(s: seq<T>, p: T -> bool): (a: seq<T>)
    ensures forall i :: 0 <= i < |a| ==> p(a[i])
  {
    if s == [] then []
    else
      var last := s[|s| - 1];
      Kept(s[..|s| - 1], p) + if p(last) then [last] else []
  }

  /** The positions before `i` of such elements. */
  function Before<T>(s: seq<T>, p: T -> bool, i: nat): set<nat>
    requires i <= |s|
  {
    set k: nat | k < i && p(s[k])
  }

  lemma BeforeNext<T>(s: seq<T>, p: T -> bool, i: nat)
    requires i < |s|
    ensures |Before(s, p, i + 1)| == |Before(s, p, i)| + if p(s[i]) then 1 else 0
  {
    assert Before(s, p, i + 1) == Before(s, p, i) + if p(s[i]) then {i} else {};
  }

  /** None is left out, and all are in order: each comes after as many as there are before it. */
  lemma {:induction false} KeptInOrder<T>(s: seq<T>, p: T -> bool, k: nat)
    requires k < |s| && p(s[k])
    ensures |Before(s, p, k)| < |Kept(s, p)| == |Before(s, p, |s|)| && Kept(s, p)[|Before(s, p, k)|] == s[k]
  {
    KeptCount(s, p);
    var n := |s| - 1;
    var t := s[..n];
    KeptCount(t, p);
    if k < n {
      KeptInOrder(t, p, k);
      assert Before(t, p, k) == Before(s, p, k);
    } else {
      assert Before(t, p, n) == Before(s, p, n);
    }
  }

  lemma {:induction false} KeptCount<T>(s: seq<T>, p: T -> bool)
    ensures |Kept(s, p)| == |Before(s, p, |s|)|
  {
    if s == [] {
      assert Before(s, p, 0) == {};
    } else {
      var n := |s| - 1;
      KeptCount(s[..n], p);
      BeforeNext(s, p, n);
      assert Before(s[..n], p, n) == Before(s, p, n);
    }
  }

  lemma KeptSnoc<T>(s: seq<T>, p: T -> bool, x: T)
    ensures Kept(s + [x], p) == Kept(s, p) + if p(x) then [x] else []
  {
    assert (s + [x])[..|s|] == s;
  }

  /** The requests that are let in, in order. */
  function Admissions(requests: seq<Request>): (a: seq<Request>)
    ensures forall i :: 0 <= i < |a| ==> Admitted(a[i])
  {
    Kept(requests, Admitted)
  }

  /** The requests that get an answer. */
  function Replied(requests: seq<Request>): seq<Request> { Kept(requests, Answered) }

  /** The messages that welcome a client, without the rejections. */
  function Welcomes(responses: seq<Response>): seq<Response> { Kept(responses, IsWelcome) }

  /** One answer per request, a rejection exactly when a game was on. */
  predicate InOrder(responses: seq<Response>, answered: seq<Request>) {
    |responses| == |answered| && forall i :: 0 <= i < |answered| ==> (responses[i].Busy? <==> answered[i].inGame)
  }

  /** What client number `n` is told and what the server will read about it. */
  ghost predicate Served(symbols: seq<char>, a: seq<Request>, n: nat, w: Response, g: Registered)
    requires |symbols| == 2 && n < |a| && Admitted(a[n])
  {
    var k := n % 2;
    && w == Welcome(a[n].pid, a[n].queueId.value, if k == 0 then SIGUSR1 else SIGUSR2, symbols[k], symbols[1 - k])
    && g == Registered(a[n].pid, a[n].name, a[n].queueId.value, symbols[k])
  }

  ghost predicate AllServed(symbols: seq<char>, a: seq<Request>, welcomes: seq<Response>, pipe: seq<Registered>)
    requires |symbols| == 2
  {
    |pipe| == |welcomes| == |a| && forall n :: 0 <= n < |a| ==> Admitted(a[n]) && Served(symbols, a, n, welcomes[n], pipe[n])
  }

  /** The pipe and the answers agree with the requests: what each client is told, what
      the server will read, and one answer per request that gets one. */
  ghost predicate Agreed(symbols: seq<char>, requests: seq<Request>, responses: seq<Response>, pipe: seq<Registered>)
    requires |symbols| == 2
  {
    AllServed(symbols, Admissions(requests), Welcomes(responses), pipe) && InOrder(responses, Replied(requests))
  }

  lemma Rejects(symbols: seq<char>, requests: seq<Request>, r: Request, responses: seq<Response>, pipe: seq<Registered>)
    requires |symbols| == 2 && Agreed(symbols, requests, responses, pipe) && r.inGame
    ensures Agreed(symbols, requests + [r], responses + [Busy], pipe)
  {
    KeptSnoc(requests, Admitted, r);
    KeptSnoc(requests, Answered, r);
    KeptSnoc(responses, IsWelcome, Busy);
    InOrderSnoc(responses, Replied(requests), Busy, r);
  }

  lemma Ignores(symbols: seq<char>, requests: seq<Request>, r: Request, responses: seq<Response>, pipe: seq<Registered>)
    requires |symbols| == 2 && Agreed(symbols, requests, responses, pipe) && !r.inGame && r.queueId.None?
    ensures Agreed(symbols, requests + [r], responses, pipe)
  {
    KeptSnoc(requests, Admitted, r);
    KeptSnoc(requests, Answered, r);
  }

  lemma Admits(symbols: seq<char>, requests: seq<Request>, r: Request, responses: seq<Response>, pipe: seq<Registered>,
               k: int, w: Response, g: Registered)
    requires |symbols| == 2 && Agreed(symbols, requests, responses, pipe) && Admitted(r) && k == |pipe| % 2
    requires w == Welcome(r.pid, r.queueId.value, SIGUSR1 + 2 * k, symbols[k], symbols[(k + 1) % 2])
    requires g == Registered(r.pid, r.name, r.queueId.value, symbols[k])
    ensures Agreed(symbols, requests + [r], responses + [w], pipe + [g])
  {
    KeptSnoc(requests, Admitted, r);
    KeptSnoc(requests, Answered, r);
    KeptSnoc(responses, IsWelcome, w);
    AllServedSnoc(symbols, Admissions(requests), r, Welcomes(responses), pipe, w, g);
    InOrderSnoc(responses, Replied(requests), w, r);
  }

  lemma AllServedSnoc(symbols: seq<char>, a: seq<Request>, r: Request, welcomes: seq<Response>, pipe: seq<Registered>, w: Response, g: Registered)
    requires |symbols| == 2 && AllServed(symbols, a, welcomes, pipe) && Admitted(r)
    requires var k := |pipe| % 2;
             && w == Welcome(r.pid, r.queueId.value, SIGUSR1 + 2 * k, symbols[k], symbols[(k + 1) % 2])
             && g == Registered(r.pid, r.name, r.queueId.value, symbols[k])
    ensures AllServed(symbols, a + [r], welcomes + [w], pipe + [g])
  {
    var b := a + [r];
    forall n | 0 <= n < |b| ensures Admitted(b[n]) && Served(symbols, b, n, (welcomes + [w])[n], (pipe + [g])[n]) {
      if n < |a| { assert Served(symbols, a, n, welcomes[n], pipe[n]); }
    }
  }

  lemma InOrderSnoc(responses: seq<Response>, answered: seq<Request>, w: Response, r: Request)
    requires InOrder(responses, answered) && (w.Busy? <==> r.inGame)
    ensures InOrder(responses + [w], answered + [r])
  {
  }

  class Service {
    const symbols: seq<char>
    var responses: seq<Response>
    var pipe: seq<Registered>

    constructor (symbols: seq<char>)
      requires |symbols| == 2
      ensures this.symbols == symbols && responses == [] && pipe == []
    {
      this.symbols := symbols;
      responses := [];
      pipe := [];
    }

    /** The service loop: the n-th client let in is the player of index n modulo 2,
        and the pipe carries the same clients in the same order. */
    method ConnLoop(requests: seq<Request>)
      requires |symbols| == 2 && responses == [] && pipe == []
      modifies this
      ensures Agreed(symbols, requests, responses, pipe)
    {
      var playerCounter := 0;
      for i := 0 to |requests|
        invariant 0 <= playerCounter < 2 && playerCounter == |pipe| % 2
        invariant Agreed(symbols, requests[..i], responses, pipe)
      {
        var req := requests[i];
        assert requests[..i + 1] == requests[..i] + [req];
        if req.inGame {
          Rejects(symbols, requests[..i], req, responses, pipe);
          responses := responses + [Busy];
          continue;
        }
        if req.queueId.None? {
          Ignores(symbols, requests[..i], req, responses, pipe);
          continue;
        }
        var symbol := symbols[playerCounter];
        var resp := Welcome(req.pid, req.queueId.value, SIGUSR1 + 2 * playerCounter, symbol, symbols[(playerCounter + 1) % 2]);
        var client := Registered(req.pid, req.name, req.queueId.value, symbol);
        Admits(symbols, requests[..i], req, responses, pipe, playerCounter, resp, client);
        responses := responses + [resp];
        pipe := pipe + [client];
        playerCounter := playerCounter + 1;
        if playerCounter == 2 {
          playerCounter := 0;
        }
      }
      assert requests[..|requests|] == requests;
    }
  }

  /** The reads of the pipe that return a client. */
  function Arrivals(arrived: seq<Option<Registered>>): seq<Registered> {
    if arrived == [] then [] else (if arrived[0].Some? then [arrived[0].value] else []) + Arrivals(arrived[1..])
  }

  /** A read that fails adds nothing, one that returns a client adds it, earlier reads first. */
  lemma {:induction false} ArrivalsJoin(earlier: seq<Option<Registered>>, later: seq<Option<Registered>>)
    ensures Arrivals(earlier + later) == Arrivals(earlier) + Arrivals(later)
    ensures Arrivals([None]) == [] && forall g :: Arrivals([Some(g)]) == [g]
  {
    if earlier == [] {
      assert earlier + later == later;
    } else {
      ArrivalsJoin(earlier[1..], later);
      assert (earlier + later)[1..] == earlier[1..] + later;
      var one := if earlier[0].Some? then [earlier[0].value] else [];
      assert one + (Arrivals(earlier[1..]) + Arrivals(later)) == one + Arrivals(earlier[1..]) + Arrivals(later);
    }
  }

  /** The server registers the first two clients it can read, in order, and gives each
      the symbol of its index. */
  method AddClients(arrived: seq<Option<Registered>>, symbols: seq<char>) returns (players: seq<Registered>)
    requires |symbols| == 2
    ensures |players| == if |Arrivals(arrived)| < 2 then |Arrivals(arrived)| else 2
    ensures forall k :: 0 <= k < |players| ==> players[k] == Arrivals(arrived)[k].(symbol := symbols[k])
  {
    players := [];
    ghost var all, seen: seq<Registered> := Arrivals(arrived), [];
    var i := 0;
    assert arrived[0..] == arrived;
    while i < |arrived| && |players| < 2
      invariant i <= |arrived| && |players| == |seen| <= 2
      invariant all == seen + Arrivals(arrived[i..])
      invariant forall k :: 0 <= k < |players| ==> players[k] == seen[k].(symbol := symbols[k])
    {
      ArrivalsStep(arrived, i, seen);
      if arrived[i].Some? {
        players := players + [arrived[i].value.(symbol := symbols[|players|])];
        seen := seen + [arrived[i].value];
      }
      i := i + 1;
    }
    assert i == |arrived| ==> arrived[i..] == [];
  }

  lemma ArrivalsStep(arrived: seq<Option<Registered>>, i: nat, seen: seq<Registered>)
    requires i < |arrived|
    ensures seen + Arrivals(arrived[i..]) ==
            (if arrived[i].Some? then seen + [arrived[i].value] else seen) + Arrivals(arrived[i + 1..])
  {
    assert arrived[i..][1..] == arrived[i + 1..];
    var rest := Arrivals(arrived[i + 1..]);
    if arrived[i].Some? { assert seen + ([arrived[i].value] + rest) == seen + [arrived[i].value] + rest; }
  }

  /** The signal a client was given, as the server's handler receives it. */
  function SignalNumbered(n: int): Signal { if n == SIGUSR2 then SigUsr2 else SigUsr1 }

  /** What client `k` was told, what the server registered and which player the handler
      marks at the client's signal are the same player. */
  ghost predicate Identified(r: Request, w: Response, g: Registered, symbols: seq<char>, k: Player)
    requires Admitted(r) && |symbols| == 2
  {
    && w.Welcome? && w.pid == g.pid == r.pid && g.name == r.name && w.queueId == g.queueId == r.queueId.value
    && w.symbol == g.symbol == symbols[k] && w.opponentSymbol == symbols[Other(k)]
    && forall f: Flags {:trigger HandleOne(f, SignalNumbered(w.signal))} :: |f.disconnected| == 2 && !f.killed ==> HandleOne(f, SignalNumbered(w.signal)) == Marked(f, k)
  }

  /** The flags once player `k`, and nobody else, was marked as disconnected. */
  function Marked(f: Flags, k: Player): Flags
    requires |f.disconnected| == 2
  {
    f.(disconnected := f.disconnected[k := true], counter := f.counter + 1, happened := true)
  }

  /** Identity agreement: the connection service answers any list of requests and writes
      to the pipe, and the server reads the pipe, where any number of reads may fail.
      The first two clients let in, as far as they were read, are the players 0 and 1
      to themselves, to the server and to its signal handler. */
  method Connect(requests: seq<Request>, symbols: seq<char>, stalls: seq<nat>)
    returns (responses: seq<Response>, players: seq<Registered>)
    requires |symbols| == 2
    ensures InOrder(responses, Replied(requests))
    ensures var a, w := Admissions(requests), Welcomes(responses);
            && |w| == |a| && |players| == (if |a| < 2 then |a| else 2)
            && forall k: Player :: k < |players| ==> Identified(a[k], w[k], players[k], symbols, k)
  {
    var service := new Service(symbols);
    service.ConnLoop(requests);
    responses := service.responses;
    var arrived := Reads(service.pipe, stalls);
    ReadsArrive(service.pipe, stalls);
    players := AddClients(arrived, symbols);
    forall k: Player | k < |players|
      ensures Identified(Admissions(requests)[k], Welcomes(responses)[k], players[k], symbols, k)
    {
      ServedIsIdentified(symbols, Admissions(requests), Welcomes(responses)[k], service.pipe[k], k);
    }
  }

  lemma ServedIsIdentified(symbols: seq<char>, a: seq<Request>, w: Response, g: Registered, k: Player)
    requires |symbols| == 2 && k < |a| && Admitted(a[k]) && Served(symbols, a, k, w, g)
    ensures Identified(a[k], w, g.(symbol := symbols[k]), symbols, k)
  {
    assert k % 2 == k;
    forall f: Flags | |f.disconnected| == 2 && !f.killed ensures HandleOne(f, SignalNumbered(w.signal)) == Marked(f, k) {
      SignalMarks(f, k);
    }
  }

  lemma SignalMarks(f: Flags, k: Player)
    requires |f.disconnected| == 2 && !f.killed
    ensures HandleOne(f, SignalNumbered(if k == 0 then SIGUSR1 else SIGUSR2)) == Marked(f, k)
  {
  }

  /** The reads of a pipe that holds these clients, the n-th after stalls[n] failures. */
  function Reads(pipe: seq<Registered>, stalls: seq<nat>): seq<Option<Registered>>
    decreases |pipe|, if stalls == [] then 0 else stalls[0]
  {
    if pipe == [] then []
    else if stalls == [] then [Some(pipe[0])] + Reads(pipe[1..], [])
    else if stalls[0] > 0 then [None] + Reads(pipe, stalls[0 := stalls[0] - 1])
    else [Some(pipe[0])] + Reads(pipe[1..], stalls[1..])
  }

  lemma {:induction false} ReadsArrive(pipe: seq<Registered>, stalls: seq<nat>)
    ensures Arrivals(Reads(pipe, stalls)) == pipe
    decreases |pipe|, if stalls == [] then 0 else stalls[0]
  {
    var arrived := Reads(pipe, stalls);
    if pipe == [] {
    } else if stalls == [] {
      ReadsArrive(pipe[1..], []);
      assert arrived[1..] == Reads(pipe[1..], []) && pipe == [pipe[0]] + pipe[1..];
    } else if stalls[0] > 0 {
      ReadsArrive(pipe, stalls[0 := stalls[0] - 1]);
      assert arrived[1..] == Reads(pipe, stalls[0 := stalls[0] - 1]);
    } else {
      ReadsArrive(pipe[1..], stalls[1..]);
      assert arrived[1..] == Reads(pipe[1..], stalls[1..]) && pipe == [pipe[0]] + pipe[1..];
    }
  }
}
