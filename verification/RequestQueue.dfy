/** The server's waiting room: row requests that its clock has not reached yet.

    Requests wait under their exact clock value and are looked up by exact match when the
    minimum clock moves, so nothing is stranded only because that clock moves by ones. */
module RequestQueue {
  import opened VectorClocks

  datatype Request = Request(bg: int, table: int, row: int, clock: int)

  /** A reply carries the server clock it was sent at. */
  datatype Answer = Answer(request: Request, clock: int)

  type Waiting = map<int, map<int, seq<Request>>>

  /** How often `r` waits in `q`. */
  ghost function Queued(q: Waiting, r: Request): nat {
    if r.clock in q && r.bg in q[r.clock] then multiset(q[r.clock][r.bg])[r] else 0
  }

  /** The requests that wait for clock `c` from bg `b`, in the order they came. */
  ghost function Line(q: Waiting, c: int, b: int): seq<Request> {
    if c in q && b in q[c] then q[c][b] else []
  }

  /** Those of bg `b` among `requests`, in order. */
  ghost function OfBg(requests: seq<Request>, b: int): seq<Request> {
    if requests == [] then []
    else OfBg(requests[..|requests| - 1], b) + if requests[|requests| - 1].bg == b then [requests[|requests| - 1]] else []
  }

  lemma {:induction false} OfBgAppend(a: seq<Request>, list: seq<Request>, from: int, b: int)
    requires forall r | r in list :: r.bg == from
    ensures OfBg(a + list, b) == OfBg(a, b) + if b == from then list else []
  {
    if list == [] {
      assert a + list == a;
    } else {
      var front := list[..|list| - 1];
      assert (a + list)[..|a + list| - 1] == a + front;
      assert list[|list| - 1] in list;
      OfBgAppend(a, front, from, b);
      assert list == front + [list[|list| - 1]];
    }
  }

  /** Requests wait under their own clock and bg, and only for clocks still to come. */
  ghost predicate Filed(q: Waiting, now: int) {
    forall c | c in q ::
      && now < c
      && forall b | b in q[c] :: forall r | r in q[c][b] :: r.clock == c && r.bg == b
  }

  function Enqueue(q: Waiting, r: Request): Waiting {
    var byBg := if r.clock in q then q[r.clock] else map[];
    var list := if r.bg in byBg then byBg[r.bg] else [];
    q[r.clock := byBg[r.bg := list + [r]]]
  }

  lemma EnqueueFiles(q: Waiting, now: int, r: Request)
    requires Filed(q, now) && now < r.clock
    ensures Filed(Enqueue(q, r), now)
    ensures forall x :: Queued(Enqueue(q, r), x) == Queued(q, x) + if x == r then 1 else 0
    ensures forall c, b :: Line(Enqueue(q, r), c, b) == Line(q, c, b) + if c == r.clock && b == r.bg then [r] else []
  {
    var q' := Enqueue(q, r);
    forall x ensures Queued(q', x) == Queued(q, x) + if x == r then 1 else 0 {
      if x.clock == r.clock && x.bg == r.bg {
        var list := if r.clock in q && r.bg in q[r.clock] then q[r.clock][r.bg] else [];
        assert multiset(list + [r]) == multiset(list) + multiset{r};
      }
    }
  }

  class RequestServer {
    const clientClocks: VectorClock
    const bgClocks: map<int, VectorClock>
    var waiting: Waiting

    /** Everything ever received, and everything answered so far. */
    ghost var received: multiset<Request>
    ghost var answered: multiset<Request>

    ghost predicate ClocksValid()
      reads this, clientClocks, bgClocks.Values
    {
      && clientClocks.Valid() && clientClocks.clocks != map[]
      && bgClocks.Keys == clientClocks.clocks.Keys
      && (forall c | c in bgClocks ::
            && bgClocks[c] != clientClocks && bgClocks[c].Valid() && bgClocks[c].clocks != map[]
            && clientClocks.clocks[c] == bgClocks[c].minClock)
      && (forall c, c' | c in bgClocks && c' in bgClocks && c != c' :: bgClocks[c] != bgClocks[c'])
    }

    ghost predicate Valid()
      reads this, clientClocks, bgClocks.Values
    {
      && ClocksValid()
      && Filed(waiting, clientClocks.minClock)
      && (forall r :: received[r] == answered[r] + Queued(waiting, r))
    }

    constructor (clients: VectorClock, bgs: map<int, VectorClock>)
      requires clients.Valid() && clients.clocks != map[] && bgs.Keys == clients.clocks.Keys
      requires forall c | c in bgs ::
        bgs[c] != clients && bgs[c].Valid() && bgs[c].clocks != map[] && clients.clocks[c] == bgs[c].minClock
      requires forall c, c' | c in bgs && c' in bgs && c != c' :: bgs[c] != bgs[c']
      ensures Valid() && waiting == map[] && received == multiset{} && clientClocks == clients && bgClocks == bgs
    {
      clientClocks, bgClocks, waiting := clients, bgs, map[];
      received, answered := multiset{}, multiset{};
    }

    /** The server's clock is the least clock of any bg of any client. */
    lemma MinOverAllBgs()
      requires ClocksValid()
      ensures forall c, b | c in bgClocks && b in bgClocks[c].clocks :: clientClocks.minClock <= bgClocks[c].clocks[b]
      ensures exists c, b :: c in bgClocks && b in bgClocks[c].clocks && bgClocks[c].clocks[b] == clientClocks.minClock
    {
      forall c, b | c in bgClocks && b in bgClocks[c].clocks ensures clientClocks.minClock <= bgClocks[c].clocks[b] {
        assert IsMin(bgClocks[c].clocks, bgClocks[c].minClock);
      }
      var c :| c in clientClocks.clocks && clientClocks.clocks[c] == clientClocks.minClock;
      assert IsMin(bgClocks[c].clocks, bgClocks[c].minClock);
      var b :| b in bgClocks[c].clocks && bgClocks[c].clocks[b] == bgClocks[c].minClock;
    }

    /** Server::Clock: true exactly when the server's minimum moved, and then by one. */
    method Clock(client: int, bg: int) returns (changed: bool)
      requires ClocksValid() && client in bgClocks && bg in bgClocks[client].clocks
      modifies clientClocks, bgClocks[client]
      ensures ClocksValid()
      ensures bgClocks[client].clocks == old(bgClocks[client].clocks)[bg := old(bgClocks[client].clocks)[bg] + 1]
      ensures clientClocks.minClock == old(clientClocks.minClock) + if changed then 1 else 0
    {
      var moved := bgClocks[client].Tick(bg);
      if moved == 0 {
        return false;
      }
      moved := clientClocks.Tick(client);
      changed := moved != 0;
    }

    /** HandleRowRequest: answered at once if the clock is reached, else made to wait. */
    method HandleRowRequest(r: Request) returns (answers: seq<Answer>)
      requires Valid()
      modifies this
      ensures Valid() && received == old(received) + multiset{r}
      ensures if r.clock <= clientClocks.minClock
              then answers == [Answer(r, clientClocks.minClock)] && waiting == old(waiting)
              else answers == [] && forall x :: Queued(waiting, x) == old(Queued(waiting, x)) + if x == r then 1 else 0
    {
      received := received + multiset{r};
      if clientClocks.minClock < r.clock {
        EnqueueFiles(waiting, clientClocks.minClock, r);
        waiting := Enqueue(waiting, r);
        return [];
      }
      answered := answered + multiset{r};
      answers := [Answer(r, clientClocks.minClock)];
    }

    /** GetFulfilledRowRequests: takes out the requests that wait for exactly the present clock. */
    method GetFulfilledRowRequests() returns (requests: seq<Request>)
      requires Filed(waiting, clientClocks.minClock - 1)
      modifies this`waiting
      ensures Filed(waiting, clientClocks.minClock)
      ensures forall r :: multiset(requests)[r] == if r.clock == clientClocks.minClock then old(Queued(waiting, r)) else 0
      ensures forall r :: Queued(waiting, r) == old(Queued(waiting, r)) - multiset(requests)[r]
      ensures forall b :: OfBg(requests, b) == old(Line(waiting, clientClocks.minClock, b))
    {
      var clock, q := clientClocks.minClock, waiting;
      requests := [];
      if clock !in q {
        return;
      }
      var byBg := q[clock];
      var todo := byBg.Keys;
      while todo != {}
        invariant todo <= byBg.Keys
        invariant forall b :: OfBg(requests, b) == if b in todo then [] else Line(q, clock, b)
        decreases |todo|
      {
        NonEmpty(todo);
        var bg :| bg in todo;
        LineAdded(q, clock, todo, bg, requests);
        requests := requests + byBg[bg];
        todo := todo - {bg};
      }
      waiting := q - {clock};
      forall r ensures multiset(requests)[r] == if r.clock == clock then Queued(q, r) else 0 {
        FulfilledCount(q, clock, requests, r);
      }
    }

    /** The reply loop of HandleOpLogMsg: every fulfilled request, at the present clock. */
    method ReplyToFulfilled() returns (answers: seq<Answer>)
      requires Filed(waiting, clientClocks.minClock - 1)
      modifies this`waiting, this`answered
      ensures Filed(waiting, clientClocks.minClock)
      ensures forall i | 0 <= i < |answers| :: answers[i].clock == clientClocks.minClock == answers[i].request.clock
      ensures forall r :: multiset(Requests(answers))[r] == if r.clock == clientClocks.minClock then old(Queued(waiting, r)) else 0
      ensures forall r :: Queued(waiting, r) == old(Queued(waiting, r)) - multiset(Requests(answers))[r]
      ensures answered == old(answered) + multiset(Requests(answers))
      ensures forall b :: OfBg(Requests(answers), b) == old(Line(waiting, clientClocks.minClock, b))
    {
      var requests := GetFulfilledRowRequests();
      var clock := clientClocks.minClock;
      answers := seq(|requests|, i requires 0 <= i < |requests| => Answer(requests[i], clock));
      assert Requests(answers) == requests;
      forall i | 0 <= i < |requests| ensures requests[i].clock == clock {
        assert multiset(requests)[requests[i]] > 0;
      }
      answered := answered + multiset(requests);
    }

    /** HandleOpLogMsg of a clock message: exactly the requests for the clock just reached are
        answered, each as often as it was waiting, and carry that clock. */
    method HandleClock(client: int, bg: int) returns (answers: seq<Answer>)
      requires Valid() && client in bgClocks && bg in bgClocks[client].clocks
      modifies this, clientClocks, bgClocks[client]
      ensures Valid() && received == old(received)
      ensures bgClocks[client].clocks == old(bgClocks[client].clocks)[bg := old(bgClocks[client].clocks[bg]) + 1]
      ensures forall c | c in bgClocks && c != client :: bgClocks[c].clocks == old(bgClocks[c].clocks)
      ensures clientClocks.minClock == old(clientClocks.minClock) || clientClocks.minClock == old(clientClocks.minClock) + 1
      ensures clientClocks.minClock == old(clientClocks.minClock) ==> answers == [] && waiting == old(waiting)
      ensures forall i | 0 <= i < |answers| :: answers[i].clock == clientClocks.minClock == answers[i].request.clock
      ensures clientClocks.minClock == old(clientClocks.minClock) <==>
              exists c, b :: c in bgClocks && b in bgClocks[c].clocks && bgClocks[c].clocks[b] == old(clientClocks.minClock)
      ensures forall r: Request | clientClocks.minClock > old(clientClocks.minClock) && r.clock == clientClocks.minClock ::
                answered[r] == old(answered[r]) + old(Queued(waiting, r)) && Queued(waiting, r) == 0
      ensures forall r: Request | r.clock != clientClocks.minClock ::
                answered[r] == old(answered[r]) && Queued(waiting, r) == old(Queued(waiting, r))
      ensures answered == old(answered) + multiset(Requests(answers))
      ensures clientClocks.minClock > old(clientClocks.minClock) ==>
              forall b :: OfBg(Requests(answers), b) == Line(old(waiting), clientClocks.minClock, b)
    {
      answers := [];
      var changed := Clock(client, bg);
      MinOverAllBgs();
      if changed {
        answers := ReplyToFulfilled();
      } else {
        assert Requests(answers) == [];
      }
    }
  }

  ghost function Requests(answers: seq<Answer>): seq<Request> {
    seq(|answers|, i requires 0 <= i < |answers| => answers[i].request)
  }

  /** Appending one bg's line adds its requests, in order, and no others. */
  lemma {:induction false} LineAdded(q: Waiting, clock: int, todo: set<int>, bg: int, requests: seq<Request>)
    requires Filed(q, clock - 1) && clock in q && bg in q[clock] && bg in todo
    requires forall b :: OfBg(requests, b) == if b in todo then [] else Line(q, clock, b)
    ensures forall b :: OfBg(requests + q[clock][bg], b) == if b in todo - {bg} then [] else Line(q, clock, b)
  {
    forall b ensures OfBg(requests + q[clock][bg], b) == if b in todo - {bg} then [] else Line(q, clock, b) {
      OfBgAppend(requests, q[clock][bg], bg, b);
    }
  }

  lemma {:induction false} OfBgCounts(requests: seq<Request>, r: Request)
    ensures multiset(requests)[r] == multiset(OfBg(requests, r.bg))[r]
  {
    if requests != [] {
      var front, last := requests[..|requests| - 1], requests[|requests| - 1];
      OfBgCounts(front, r);
      assert requests == front + [last];
    }
  }

  lemma {:induction false} FulfilledCount(q: Waiting, clock: int, requests: seq<Request>, r: Request)
    requires Filed(q, clock - 1) && OfBg(requests, r.bg) == Line(q, clock, r.bg)
    ensures multiset(requests)[r] == if r.clock == clock then Queued(q, r) else 0
  {
    OfBgCounts(requests, r);
    var list := Line(q, clock, r.bg);
    if multiset(list)[r] > 0 {
      assert r in list;
    }
  }
}
