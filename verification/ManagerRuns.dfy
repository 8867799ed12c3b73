/** The log managers beside the protocol.

    A bg thread's manager notes what the bg ships and which version each server acknowledges. Over
    every run its notes agree with the protocol: it knows the bg's log, and acknowledged versions never
    go back, so the handlers' fatal checks hold and the row it rebuilds is the protocol's. */
module ManagerRuns {
  import opened PsTypes
  import opened ClientNode
  import opened Protocol
  import opened ProtocolProofs
  import opened ServerVersions
  import opened PullLog
  import opened PushLog
  import opened RowReplay

  /** How many shipments of its receiver, a bg of client `c`, a message reflects. The version it
      carries is one less. */
  ghost function Reflects(m: Msg, c: nat): int {
    match m
    case RowMsg(_, _, _, cut) => if c in cut then cut[c] else 0
    case ClockMsg(_, applied) => applied
  }

  /** Later messages reflect no less than earlier ones. */
  ghost predicate InOrder(q: seq<Msg>, c: nat, low: int, high: int) {
    && (forall i | 0 <= i < |q| :: low <= Reflects(q[i], c) <= high)
    && (forall i, j | 0 <= i < j < |q| :: Reflects(q[i], c) <= Reflects(q[j], c))
  }

  lemma InOrderAppend(q: seq<Msg>, more: seq<Msg>, c: nat, low: int, high: int)
    requires InOrder(q, c, low, high) && low <= high && forall i | 0 <= i < |more| :: Reflects(more[i], c) == high
    ensures InOrder(q + more, c, low, high)
  {
    var all := q + more;
    forall i | 0 <= i < |all| ensures low <= Reflects(all[i], c) <= high && (i >= |q| ==> Reflects(all[i], c) == high) {
      assert all[i] == if i < |q| then q[i] else more[i - |q|];
    }
    forall i, j | 0 <= i < j < |all| ensures Reflects(all[i], c) <= Reflects(all[j], c) {
      if j < |q| {
        assert all[i] == q[i] && all[j] == q[j];
      }
    }
  }

  /** A manager's notes: what it was given to keep, and the last version each server acknowledged. */
  datatype Book = Book(sent: seq<Shipment>, acked: map<int, int>)

  ghost predicate ServerFollows(sv: Server, c: nat, b: nat, acked: int, sent: nat) {
    0 <= acked + 1 <= AppliedOf(sv, c, b) <= sent && InOrder(Down(sv, c, b), c, acked + 1, AppliedOf(sv, c, b))
  }

  /** The notes of the manager of bg (c, b) agree with the system. */
  ghost predicate Follows(cfg: Config, S: System, c: nat, b: nat, book: Book) {
    && SysShape(cfg, S) && c in S.clients && b < cfg.numBgs && book.sent == Log(S, c, b)
    && forall s: int | 0 <= s < |S.servers| :: s in book.acked && ServerFollows(S.servers[s], c, b, book.acked[s], |book.sent|)
  }

  // ------------------------------------------------ what a step means to the manager

  /** What bg (c, b) does in a step: sends a version, handles a message of server `s`, or nothing of these. */
  datatype Event = Sent | Got(s: nat) | Elsewhere

  ghost predicate Happens(cfg: Config, S: System, S': System, c: nat, b: nat, e: Event)
    requires SysShape(cfg, S)
  {
    match e
    case Sent => exists C' :: ClientMoves(cfg, S, S', c, C', DoShipEnd(b))
    case Got(s) => exists C' :: Receive(cfg, S, S', s, c, b, C')
    case Elsewhere =>
      || (exists i, C', step :: ClientMoves(cfg, S, S', i, C', step) && !(i == c && step == DoShipEnd(b)))
      || (exists s, i, j :: Apply(cfg, S, S', s, i, j))
      || (exists s, i, k :: Reply(cfg, S, S', s, i, k))
      || (exists s, down' :: PushAll(cfg, S, S', s, down'))
      || (exists s, i, j, C' :: Receive(cfg, S, S', s, i, j, C') && !(i == c && j == b))
  }

  lemma EveryStepHappens(cfg: Config, S: System, S': System, c: nat, b: nat) returns (e: Event)
    requires Next(cfg, S, S')
    ensures Happens(cfg, S, S', c, b, e)
  {
    if i, C', step :| ClientMoves(cfg, S, S', i, C', step) {
      e := if i == c && step == DoShipEnd(b) then Sent else Elsewhere;
    } else if s, i, j, C' :| Receive(cfg, S, S', s, i, j, C') {
      e := if i == c && j == b then Got(s) else Elsewhere;
    } else {
      e := Elsewhere;
    }
  }

  /** The version bg `b` has drafted. */
  ghost function Drafted(C: Client, b: nat): Shipment {
    if b < |C.bgs| && C.bgs[b].draft.Some? then Shipment(C.bgs[b].draft.value.isClock, C.bgs[b].draft.value.rows)
    else Shipment(false, map[])
  }

  /** The message bg (c, b) handles next from server `s`, if any, reflects this. */
  ghost function HeadReflects(S: System, s: nat, c: nat, b: nat): int {
    if s < |S.servers| && Down(S.servers[s], c, b) != [] then Reflects(Down(S.servers[s], c, b)[0], c) else 0
  }

  /** AddOpLog with the version sent; ServerAcknowledgeVersion with the version received. */
  ghost function Noted(S: System, c: nat, b: nat, e: Event, book: Book): Book {
    match e
    case Sent => if c in S.clients then book.(sent := book.sent + [Drafted(S.clients[c], b)]) else book
    case Got(s) => book.(acked := book.acked[s := HeadReflects(S, s, c, b) - 1])
    case Elsewhere => book
  }

  // ------------------------------------------------ each kind of step

  /** Only ShipEnd extends a log. */
  lemma LogOnlyShips(cfg: Config, c: nat, C: Client, C': Client, step: Step, b: nat)
    requires Shape(cfg, C) && ClientStep(cfg, c, C, C', step) && step != DoShipEnd(b) && b < |C.bgs|
    ensures |C'.bgs| == |C.bgs| && C'.bgs[b].log == C.bgs[b].log
  {
    if step.DoInc? {
      DeliverLog(cfg, C, step.u.key, multiset{step.u}, b);
    } else if step.DoFlushRow? {
      DeliverLog(cfg, C, step.k, C.threads[step.t].oplog[step.k], b);
    }
  }

  lemma DeliverLog(cfg: Config, C: Client, k: Key, r: Row, b: nat)
    requires Shape(cfg, C) && b < |C.bgs|
    ensures var D := Deliver(cfg, C, k, r); |D.bgs| == |C.bgs| && D.bgs[b].log == C.bgs[b].log
  {
  }

  lemma SentFollows(cfg: Config, S: System, S': System, c: nat, b: nat, C': Client, book: Book)
    requires Follows(cfg, S, c, b, book) && ClientMoves(cfg, S, S', c, C', DoShipEnd(b)) && SysShape(cfg, S')
    ensures Follows(cfg, S', c, b, Noted(S, c, b, Sent, book))
  {
    var book' := Noted(S, c, b, Sent, book);
    forall s: int | 0 <= s < |S'.servers| ensures s in book'.acked && ServerFollows(S'.servers[s], c, b, book'.acked[s], |book'.sent|) {
      assert ServerFollows(S.servers[s], c, b, book.acked[s], |book.sent|);
    }
  }

  lemma MovedFollows(cfg: Config, S: System, S': System, c: nat, b: nat, i: nat, C': Client, step: Step, book: Book)
    requires Follows(cfg, S, c, b, book) && ClientMoves(cfg, S, S', i, C', step) && !(i == c && step == DoShipEnd(b)) && SysShape(cfg, S')
    ensures Follows(cfg, S', c, b, book)
  {
    if i == c {
      LogOnlyShips(cfg, c, S.clients[c], C', step, b);
    }
  }

  /** One server changes, no log does. */
  lemma ServerMovedFollows(cfg: Config, S: System, S': System, c: nat, b: nat, s: nat, sv': Server, book: Book)
    requires Follows(cfg, S, c, b, book) && s < |S.servers| && S' == S.(servers := S.servers[s := sv'])
    requires ServerFollows(sv', c, b, book.acked[s], |book.sent|)
    ensures Follows(cfg, S', c, b, book)
  {
    forall i: int | 0 <= i < |S'.servers| ensures i in book.acked && ServerFollows(S'.servers[i], c, b, book.acked[i], |book.sent|) {
      if i != s {
        assert ServerFollows(S.servers[i], c, b, book.acked[i], |book.sent|);
      }
    }
  }

  lemma ApplyFollows(cfg: Config, S: System, S': System, c: nat, b: nat, s: nat, i: nat, j: nat, book: Book)
    requires Follows(cfg, S, c, b, book) && Apply(cfg, S, S', s, i, j)
    ensures Follows(cfg, S', c, b, book)
  {
    var sv := S.servers[s];
    assert ServerFollows(sv, c, b, book.acked[s], |book.sent|);
    var sh := Log(S, i, j)[AppliedOf(sv, i, j)];
    var sv' := Handled(cfg, S, sv, s, i, j, sh);
    HandledFields(cfg, S, sv, s, i, j, sh);
    assert AppliedOf(sv, c, b) <= AppliedOf(sv', c, b) <= |Log(S, c, b)| && Down(sv', c, b) == Down(sv, c, b);
    ServerMovedFollows(cfg, S, S', c, b, s, sv', book);
  }

  /** What a server sends reflects all it has applied. */
  lemma SentReflects(cfg: Config, S: System, sv: Server, k: Key, c: nat)
    requires c in S.clients
    ensures Reflects(RowMsgFor(cfg, S, sv, k), c) == AppliedOf(sv, c, Part(cfg, k))
  {
  }

  lemma ReplyFollows(cfg: Config, S: System, S': System, c: nat, b: nat, s: nat, i: nat, k: Key, book: Book)
    requires Follows(cfg, S, c, b, book) && Reply(cfg, S, S', s, i, k)
    ensures Follows(cfg, S', c, b, book)
  {
    var sv, sv', acked := S.servers[s], S'.servers[s], book.acked[s];
    assert ServerFollows(sv, c, b, acked, |book.sent|);
    assert AppliedOf(sv', c, b) == AppliedOf(sv, c, b);
    if i == c && Part(cfg, k) == b {
      SentReflects(cfg, S, sv, k, c);
      InOrderAppend(Down(sv, c, b), [RowMsgFor(cfg, S, sv, k)], c, acked + 1, AppliedOf(sv, c, b));
    } else {
      assert Down(sv', c, b) == Down(sv, c, b);
    }
    ServerMovedFollows(cfg, S, S', c, b, s, sv', book);
  }

  lemma PushedInOrder(cfg: Config, S: System, sv: Server, s: nat, c: nat, b: nat, down': map<Ch, seq<Msg>>, low: int)
    requires c in S.clients && Pushed(cfg, S, sv, s, c, b, down')
    requires InOrder(Down(sv, c, b), c, low, AppliedOf(sv, c, b)) && low <= AppliedOf(sv, c, b)
    ensures InOrder(down'[Ch(c, b)], c, low, AppliedOf(sv, c, b))
  {
    var ks: seq<Key> :|
      && (forall k :: k in ks <==> Due(cfg, sv, s, c, b, k))
      && down'[Ch(c, b)] == Down(sv, c, b) + RowMsgs(cfg, S, sv, ks) + [ClockMsgFor(sv, c, b)];
    var rows := RowMsgs(cfg, S, sv, ks);
    forall i | 0 <= i < |rows| ensures Reflects(rows[i], c) == AppliedOf(sv, c, b) {
      assert ks[i] in ks && Due(cfg, sv, s, c, b, ks[i]);
      SentReflects(cfg, S, sv, ks[i], c);
    }
    InOrderAppend(Down(sv, c, b), rows, c, low, AppliedOf(sv, c, b));
    InOrderAppend(Down(sv, c, b) + rows, [ClockMsgFor(sv, c, b)], c, low, AppliedOf(sv, c, b));
  }

  lemma PushFollows(cfg: Config, S: System, S': System, c: nat, b: nat, s: nat, down': map<Ch, seq<Msg>>, book: Book)
    requires Follows(cfg, S, c, b, book) && PushAll(cfg, S, S', s, down')
    ensures Follows(cfg, S', c, b, book)
  {
    var sv, sv', acked := S.servers[s], S'.servers[s], book.acked[s];
    assert ServerFollows(sv, c, b, acked, |book.sent|);
    assert AppliedOf(sv', c, b) == AppliedOf(sv, c, b);
    if cfg.mode == Push {
      PushedInOrder(cfg, S, sv, s, c, b, down', acked + 1);
      assert Down(sv', c, b) == down'[Ch(c, b)];
    } else {
      assert Down(sv', c, b) == Down(sv, c, b);
    }
    ServerMovedFollows(cfg, S, S', c, b, s, sv', book);
  }

  lemma ReceivedLogs(cfg: Config, S: System, S': System, s: nat, i: nat, j: nat, C': Client, c: nat, b: nat)
    requires SysShape(cfg, S) && Receive(cfg, S, S', s, i, j, C') && c in S.clients && b < cfg.numBgs
    ensures SysShape(cfg, S') && Log(S', c, b) == Log(S, c, b)
  {
  }

  /** Handling a message: the version it carries is not older than the last acknowledged one of that
      server, is one the bg has sent, and no later message will be older. */
  lemma GotFollows(cfg: Config, S: System, S': System, c: nat, b: nat, s: nat, C': Client, book: Book)
    requires Follows(cfg, S, c, b, book) && Receive(cfg, S, S', s, c, b, C')
    ensures book.acked[s] <= HeadReflects(S, s, c, b) - 1 < |book.sent|
    ensures Follows(cfg, S', c, b, Noted(S, c, b, Got(s), book))
  {
    var sv, q := S.servers[s], Down(S.servers[s], c, b);
    assert ServerFollows(sv, c, b, book.acked[s], |book.sent|);
    ReceivedLogs(cfg, S, S', s, c, b, C', c, b);
    var book', low := Noted(S, c, b, Got(s), book), Reflects(q[0], c);
    assert InOrder(q[1..], c, low, AppliedOf(sv, c, b));
    forall i: int | 0 <= i < |S'.servers| ensures i in book'.acked && ServerFollows(S'.servers[i], c, b, book'.acked[i], |book'.sent|) {
      assert ServerFollows(S.servers[i], c, b, book.acked[i], |book.sent|);
    }
  }

  lemma OtherGotFollows(cfg: Config, S: System, S': System, c: nat, b: nat, s: nat, i: nat, j: nat, C': Client, book: Book)
    requires Follows(cfg, S, c, b, book) && Receive(cfg, S, S', s, i, j, C') && !(i == c && j == b)
    ensures Follows(cfg, S', c, b, book)
  {
    ReceivedLogs(cfg, S, S', s, i, j, C', c, b);
    forall x: int | 0 <= x < |S'.servers| ensures x in book.acked && ServerFollows(S'.servers[x], c, b, book.acked[x], |book.sent|) {
      assert ServerFollows(S.servers[x], c, b, book.acked[x], |book.sent|);
      assert Down(S'.servers[x], c, b) == Down(S.servers[x], c, b);
    }
  }

  /** Whatever happens, the notes keep agreeing. */
  lemma StepFollows(cfg: Config, S: System, S': System, c: nat, b: nat, e: Event, book: Book)
    requires Follows(cfg, S, c, b, book) && Happens(cfg, S, S', c, b, e) && SysShape(cfg, S')
    ensures Follows(cfg, S', c, b, Noted(S, c, b, e, book))
  {
    match e
    case Sent =>
      var C' :| ClientMoves(cfg, S, S', c, C', DoShipEnd(b));
      SentFollows(cfg, S, S', c, b, C', book);
    case Got(s) =>
      var C' :| Receive(cfg, S, S', s, c, b, C');
      GotFollows(cfg, S, S', c, b, s, C', book);
    case Elsewhere =>
      if i, C', step :| ClientMoves(cfg, S, S', i, C', step) && !(i == c && step == DoShipEnd(b)) {
        MovedFollows(cfg, S, S', c, b, i, C', step, book);
      } else if s, i, j :| Apply(cfg, S, S', s, i, j) {
        ApplyFollows(cfg, S, S', c, b, s, i, j, book);
      } else if s, i, k :| Reply(cfg, S, S', s, i, k) {
        ReplyFollows(cfg, S, S', c, b, s, i, k, book);
      } else if s, down' :| PushAll(cfg, S, S', s, down') {
        PushFollows(cfg, S, S', c, b, s, down', book);
      } else {
        var s, i, j, C' :| Receive(cfg, S, S', s, i, j, C') && !(i == c && j == b);
        OtherGotFollows(cfg, S, S', c, b, s, i, j, C', book);
      }
  }

  // ------------------------------------------------ runs

  ghost predicate HappensAt(cfg: Config, run: seq<System>, c: nat, b: nat, e: Event, i: nat)
    requires i + 1 < |run|
  {
    SysShape(cfg, run[i]) && Happens(cfg, run[i], run[i + 1], c, b, e)
  }

  /** What happens to bg (c, b) in each step of a run. */
  ghost predicate HappenIn(cfg: Config, run: seq<System>, c: nat, b: nat, events: seq<Event>) {
    && Protocol.IsRun(cfg, run) && |events| == |run| - 1 && c in run[0].clients && b < cfg.numBgs
    && forall i | 0 <= i < |events| :: HappensAt(cfg, run, c, b, events[i], i)
  }

  lemma SomethingHappens(cfg: Config, run: seq<System>, c: nat, b: nat, i: nat) returns (e: Event)
    requires Protocol.IsRun(cfg, run) && i + 1 < |run|
    ensures HappensAt(cfg, run, c, b, e, i)
  {
    assert Next(cfg, run[i], run[i + 1]);
    e := EveryStepHappens(cfg, run[i], run[i + 1], c, b);
  }

  lemma {:induction false} EventsTo(cfg: Config, run: seq<System>, c: nat, b: nat, n: nat) returns (events: seq<Event>)
    requires Protocol.IsRun(cfg, run) && n < |run|
    ensures |events| == n && forall i | 0 <= i < n :: HappensAt(cfg, run, c, b, events[i], i)
  {
    if n == 0 {
      events := [];
    } else {
      var before := EventsTo(cfg, run, c, b, n - 1);
      var e := SomethingHappens(cfg, run, c, b, n - 1);
      events := before + [e];
    }
  }

  /** Every run is one of some events. */
  lemma EveryRunHappens(cfg: Config, run: seq<System>, c: nat, b: nat)
    requires Protocol.IsRun(cfg, run) && c in run[0].clients && b < cfg.numBgs
    ensures exists events :: HappenIn(cfg, run, c, b, events)
  {
    var events := EventsTo(cfg, run, c, b, |run| - 1);
    assert HappenIn(cfg, run, c, b, events);
  }

  /** No server has acknowledged anything. */
  ghost function Unacknowledged(n: nat): (acked: map<int, int>)
    ensures forall s | 0 <= s < n :: s in acked && acked[s] == -1
  {
    if n == 0 then map[] else Unacknowledged(n - 1)[n - 1 := -1]
  }

  lemma InitFollows(cfg: Config, S: System, c: nat, b: nat)
    requires Init(cfg, S) && c in S.clients && b < cfg.numBgs
    ensures Follows(cfg, S, c, b, Book([], Unacknowledged(cfg.numServers)))
  {
    assert InitClient(cfg, S.clients[c]);
    forall s | 0 <= s < |S.servers| ensures ServerFollows(S.servers[s], c, b, -1, 0) {
      assert InitServer(S.servers[s]);
    }
  }

  /** The manager's notes after `i` steps. */
  ghost function BookAt(cfg: Config, run: seq<System>, c: nat, b: nat, events: seq<Event>, i: nat): Book
    requires i < |run| && |events| == |run| - 1
  {
    if i == 0 then Book([], Unacknowledged(cfg.numServers))
    else Noted(run[i - 1], c, b, events[i - 1], BookAt(cfg, run, c, b, events, i - 1))
  }

  lemma HappenedAt(cfg: Config, run: seq<System>, c: nat, b: nat, events: seq<Event>, i: nat)
    requires HappenIn(cfg, run, c, b, events) && i < |events|
    ensures SysShape(cfg, run[i]) && SysShape(cfg, run[i + 1]) && Happens(cfg, run[i], run[i + 1], c, b, events[i])
  {
    assert HappensAt(cfg, run, c, b, events[i], i);
    RunInv(cfg, run, i + 1);
  }

  lemma {:induction false} RunFollows(cfg: Config, run: seq<System>, c: nat, b: nat, events: seq<Event>, i: nat)
    requires HappenIn(cfg, run, c, b, events) && i < |run|
    ensures Follows(cfg, run[i], c, b, BookAt(cfg, run, c, b, events, i))
  {
    if i == 0 {
      InitFollows(cfg, run[0], c, b);
    } else {
      RunFollows(cfg, run, c, b, events, i - 1);
      HappenedAt(cfg, run, c, b, events, i - 1);
      StepFollows(cfg, run[i - 1], run[i], c, b, events[i - 1], BookAt(cfg, run, c, b, events, i - 1));
    }
  }

  /** In every run, whatever a bg receives from a server carries a version that it has sent and that is
      not older than the last one this server acknowledged to it. */
  lemma VersionsNeverGoBack(cfg: Config, run: seq<System>, c: nat, b: nat, events: seq<Event>, i: nat, s: nat)
    requires HappenIn(cfg, run, c, b, events) && i < |events| && events[i] == Got(s)
    ensures var book := BookAt(cfg, run, c, b, events, i);
      && book.sent == Log(run[i], c, b) && s in book.acked
      && book.acked[s] <= HeadReflects(run[i], s, c, b) - 1 < |book.sent|
  {
    RunFollows(cfg, run, c, b, events, i);
    var book := BookAt(cfg, run, c, b, events, i);
    HappenedAt(cfg, run, c, b, events, i);
    var C' :| Receive(cfg, run[i], run[i + 1], s, c, b, C');
    GotFollows(cfg, run[i], run[i + 1], c, b, s, C', book);
  }

  // ------------------------------------------------ the managers take the steps

  /** A push manager's notes. */
  ghost function BookOf(mgr: PushLogMgr<Shipment>): Book
    reads mgr, mgr.versions
  {
    Book(mgr.history, mgr.versions.trueVersions)
  }

  /** HandleClockMsg under SSPPush: the version sent is kept. */
  method ShipAndKeep(mgr: PushLogMgr<Shipment>, version: int, oplog: Shipment, ghost cfg: Config, ghost S: System, ghost S': System,
                     ghost c: nat, ghost b: nat, ghost C': Client)
    requires mgr.Valid() && Follows(cfg, S, c, b, BookOf(mgr)) && SysShape(cfg, S')
    requires ClientMoves(cfg, S, S', c, C', DoShipEnd(b)) && oplog == Drafted(S.clients[c], b) && version == U32(|mgr.history|)
    requires mgr.versions.trueUpper + 1 - mgr.versions.trueMin < TwoTo32
    modifies mgr`list, mgr`history, mgr.versions`upper, mgr.versions`trueUpper
    ensures mgr.Valid() && BookOf(mgr) == Noted(S, c, b, Sent, old(BookOf(mgr))) && Follows(cfg, S', c, b, BookOf(mgr))
  {
    SentFollows(cfg, S, S', c, b, C', BookOf(mgr));
    mgr.AddOpLog(version, oplog);
  }

  /** Every message from a server under SSPPush: the version it carries is acknowledged, and neither the
      manager's checks nor its pruning can go wrong. */
  method Acknowledge(mgr: PushLogMgr<Shipment>, s: nat, version: int, ghost cfg: Config, ghost S: System, ghost S': System,
                     ghost c: nat, ghost b: nat, ghost C': Client)
    requires mgr.Valid() && Follows(cfg, S, c, b, BookOf(mgr))
    requires Receive(cfg, S, S', s, c, b, C') && version == U32(HeadReflects(S, s, c, b) - 1)
    modifies mgr`list, mgr.versions
    ensures mgr.Valid() && BookOf(mgr) == Noted(S, c, b, Got(s), old(BookOf(mgr))) && Follows(cfg, S', c, b, BookOf(mgr))
    ensures mgr.versions.trueMin <= HeadReflects(S, s, c, b) - 1 < |mgr.history|
  {
    GotFollows(cfg, S, S', c, b, s, C', BookOf(mgr));
    mgr.ServerAcknowledgeVersion(s, version, HeadReflects(S, s, c, b) - 1);
  }

  /** A row from a server under SSPPush, pushed or requested: rebuilt from what the manager keeps and
      the unsent oplog entry, it is the row the protocol inserts, unless versions have wrapped since. */
  method HandlePushedRow(mgr: PushLogMgr<Shipment>, s: nat, version: int, current: int, k: Key, content: Row, unsent: Row,
                         ghost cfg: Config, ghost S: System, ghost S': System, ghost c: nat, ghost b: nat, ghost C': Client)
    returns (row: Row)
    requires mgr.Valid() && Follows(cfg, S, c, b, BookOf(mgr)) && Inv(cfg, S)
    requires Receive(cfg, S, S', s, c, b, C') && GivenRow(Down(S.servers[s], c, b)[0], k, content)
    requires unsent == At(S.clients[c].oplog, k)
    requires version == U32(HeadReflects(S, s, c, b) - 1) && current == U32(|mgr.history|)
    modifies mgr`list, mgr.versions
    ensures mgr.Valid() && Follows(cfg, S', c, b, BookOf(mgr)) && b < |C'.bgs| && C'.bgs[b].building.Some?
    ensures C'.bgs[b].building.value.key == k
    ensures U32(HeadReflects(S, s, c, b)) <= U32(|mgr.history|) ==> row == C'.bgs[b].building.value.row.content
    ensures U32(HeadReflects(S, s, c, b)) > U32(|mgr.history|) ==> row == content + unsent
  {
    ghost var t := HeadReflects(S, s, c, b) - 1;
    RowBuilt(cfg, S, S', s, c, b, C', k, content);
    Acknowledge(mgr, s, version, cfg, S, S', c, b, C');
    var oplogs := mgr.OpLogsAfter(version, current, t);
    row := Rebuilt(content, oplogs, unsent, k, mgr.history, t + 1);
  }

  /** ApplyOpLogsAndInsertRow, once the oplogs to replay are found. */
  method Rebuilt(content: Row, oplogs: seq<Shipment>, unsent: Row, k: Key, ghost log: seq<Shipment>, ghost n: nat) returns (row: Row)
    requires n <= |log|
    ensures oplogs == log[n..] ==> row == content + Replay(log, n, |log|, k) + unsent
    ensures oplogs == [] ==> row == content + unsent
  {
    row := ApplyOpLogs(content, oplogs, k);
    ReplaySuffix(log, n, |log|, k);
    row := row + unsent;
  }

  ghost predicate GivenRow(m: Msg, k: Key, content: Row) {
    m.RowMsg? && m.key == k && m.content == content
  }

  /** What BuildRow inserts, in terms of the message and the log. */
  lemma RowBuilt(cfg: Config, S: System, S': System, s: nat, c: nat, b: nat, C': Client, k: Key, content: Row)
    requires Inv(cfg, S) && Receive(cfg, S, S', s, c, b, C') && GivenRow(Down(S.servers[s], c, b)[0], k, content)
    ensures b < |C'.bgs| && C'.bgs[b].building.Some? && C'.bgs[b].building.value.key == k
    ensures var log, n := Log(S, c, b), HeadReflects(S, s, c, b);
      0 <= n <= |log| && C'.bgs[b].building.value.row.content == content + Replay(log, n, |log|, k) + At(S.clients[c].oplog, k)
  {
    var m := Down(S.servers[s], c, b)[0];
    assert ServerOk(cfg, S, s, S.servers[s]);
    assert MsgsOk(cfg, S, s, b, Down(S.servers[s], c, b));
    assert MsgOk(cfg, S, s, b, m);
  }

  /** HandleClockMsg under SSP: the version sent is kept if some request is pending. */
  method ShipAndTrack(mgr: PullLogMgr<Shipment>, oplog: Shipment, ghost book: Book, ghost cfg: Config, ghost S: System, ghost S': System,
                      ghost c: nat, ghost b: nat, ghost C': Client)
    requires mgr.Valid() && Follows(cfg, S, c, b, book) && book.sent == mgr.history && SysShape(cfg, S')
    requires ClientMoves(cfg, S, S', c, C', DoShipEnd(b)) && oplog == Drafted(S.clients[c], b)
    requires Window(mgr.versions, mgr.current + 1)
    modifies mgr
    ensures mgr.Valid() && Follows(cfg, S', c, b, Noted(S, c, b, Sent, book)) && Noted(S, c, b, Sent, book).sent == mgr.history
  {
    SentFollows(cfg, S, S', c, b, C', book);
    var tracked := mgr.AddOpLog(oplog);
  }

  /** A reply under SSP that some pending request covers, and that is not 2^32 versions old: the row
      rebuilt from the saved oplogs and the unsent entry is the row the protocol inserts, unless versions
      have wrapped since. */
  method HandlePulledRow(mgr: PullLogMgr<Shipment>, ghost s: nat, t: int, k: Key, content: Row, unsent: Row, ghost book: Book,
                         ghost cfg: Config, ghost S: System, ghost S': System, ghost c: nat, ghost b: nat, ghost C': Client)
    returns (row: Row)
    requires mgr.Valid() && Follows(cfg, S, c, b, book) && book.sent == mgr.history && Inv(cfg, S)
    requires Receive(cfg, S, S', s, c, b, C') && GivenRow(Down(S.servers[s], c, b)[0], k, content)
    requires unsent == At(S.clients[c].oplog, k) && t == HeadReflects(S, s, c, b) - 1
    requires Near(t, mgr.current) && Replayable(t, mgr.versions, mgr.current)
    ensures Follows(cfg, S', c, b, Noted(S, c, b, Got(s), book)) && b < |C'.bgs| && C'.bgs[b].building.Some?
    ensures C'.bgs[b].building.value.key == k
    ensures U32(t + 1) <= U32(mgr.current) ==> row == C'.bgs[b].building.value.row.content
    ensures U32(t + 1) > U32(mgr.current) ==> row == content + unsent
  {
    RowBuilt(cfg, S, S', s, c, b, C', k, content);
    GotFollows(cfg, S, S', c, b, s, C', book);
    var oplogs := mgr.OpLogsAfter(t);
    row := Rebuilt(content, oplogs, unsent, k, mgr.history, t + 1);
  }
}
