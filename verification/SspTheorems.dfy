/** What the parameter server promises, for every state of every run.

    The bound of a read by a thread at clock c is max(0, c - staleness),
    with the staleness of the table read. */
module SspTheorems {
  import opened PsTypes
  import opened ClientNode
  import opened ClientProofs
  import opened Protocol
  import opened ProtocolProofs
  import opened PushFreshness

  ghost predicate Issued(S: System, u: Update) {
    u.client in S.clients && u in S.clients[u.client].issued
  }

  /** `row` shows each update to `k` at most once, nothing else, and nothing tagged below
      `bound` is missing from it. */
  ghost predicate FreshRow(S: System, k: Key, bound: nat, row: Row) {
    forall u ::
      && row[u] <= 1
      && (row[u] == 1 ==> Issued(S, u) && u.key == k)
      && (Issued(S, u) && u.key == k && u.clock < bound ==> row[u] == 1)
  }

  /** The bound of a read of row `k` by a thread at clock `ticked`: max(0, ticked - staleness). */
  ghost function Bound(cfg: Config, th: Thread, k: Key): nat {
    if th.ticked < cfg.staleness(k.table) then 0 else th.ticked - cfg.staleness(k.table)
  }

  /** No thread of any process has finished fewer than `bound` clocks. */
  ghost predicate NoneBehind(S: System, bound: nat) {
    && (forall c | c in S.clients :: bound <= S.clients[c].minClock)
    && (forall c, t | c in S.clients && t in S.clients[c].threads :: bound <= S.clients[c].threads[t].ticked)
  }

  // ------------------------------------------------ conservation

  lemma HeldIsOnce(cfg: Config, S: System, k: Key, cut: map<nat, nat>, u: Update)
    requires SysShape(cfg, S) && (u.client in S.clients ==> ClientInv(cfg, u.client, S.clients[u.client]))
    ensures Held(cfg, S, k, cut, u) <= if Issued(S, u) && u.key == k then 1 else 0
  {
    if u.client in S.clients && u.client in cut && cut[u.client] <= |Log(S, u.client, Part(cfg, k))| {
      var C := S.clients[u.client];
      var log := BgOf(cfg, C, k).log;
      assert Buffered(C, k, u) + Flushed(cfg, C, k, u) == if u in C.issued && u.key == k then 1 else 0;
      LogCountMonotone(log, cut[u.client], |log|, k, u);
    }
  }

  /** Where update `u` to row `k` is: buffered by its thread, unsent, being packed, on its
      way to the server, or in the server's copy. */
  ghost function Places(cfg: Config, S: System, k: Key, u: Update): nat
    requires SysShape(cfg, S) && u.client in S.clients
  {
    var C, sv := S.clients[u.client], S.servers[ServerOf(cfg, k)];
    var log := BgOf(cfg, C, k).log;
    var done := AppliedOf(sv, u.client, Part(cfg, k));
    Buffered(C, k, u) + At(C.oplog, k)[u] + DraftCount(BgOf(cfg, C, k), k, u)
    + (if done <= |log| then Replay(log, done, |log|, k)[u] else 0) + At(sv.rows, k)[u]
  }

  /** No step of any run loses or duplicates an update. */
  lemma Conservation(cfg: Config, run: seq<System>, i: nat, k: Key, u: Update)
    requires IsRun(cfg, run) && i < |run| && u.client in run[i].clients
    ensures SysShape(cfg, run[i])
    ensures Places(cfg, run[i], k, u) == if Issued(run[i], u) && u.key == k then 1 else 0
  {
    RunInv(cfg, run, i);
    var S := run[i];
    var C, sv := S.clients[u.client], S.servers[ServerOf(cfg, k)];
    assert ServerOk(cfg, S, ServerOf(cfg, k), sv) && ClockOk(S, sv, u.client, Part(cfg, k));
    var log := BgOf(cfg, C, k).log;
    var done := AppliedOf(sv, u.client, Part(cfg, k));
    ReplayCounts(log, done, |log|, k, u);
    assert At(sv.rows, k)[u] == Held(cfg, S, k, Cut(S, sv, Part(cfg, k)), u) == LogCount(log, done, k, u);
    assert Buffered(C, k, u) + Flushed(cfg, C, k, u) == if u in C.issued && u.key == k then 1 else 0;
  }

  /** A server whose minimum clock is m holds every update tagged below m, by anyone, once. */
  lemma ServerClockMeansApplied(cfg: Config, run: seq<System>, i: nat, s: nat, k: Key)
    requires IsRun(cfg, run) && i < |run| && s < |run[i].servers| && ServerOf(cfg, k) == s
    ensures FreshRow(run[i], k, run[i].servers[s].minClock, At(run[i].servers[s].rows, k))
    ensures NoneBehind(run[i], run[i].servers[s].minClock)
  {
    RunInv(cfg, run, i);
    var S := run[i];
    var sv := S.servers[s];
    assert ServerOk(cfg, S, s, sv);
    CutCovers(cfg, S, sv, k);
    var cut := Cut(S, sv, Part(cfg, k));
    forall u ensures At(sv.rows, k)[u] == Held(cfg, S, k, cut, u) <= if Issued(S, u) && u.key == k then 1 else 0 {
      HeldIsOnce(cfg, S, k, cut, u);
    }
    ServerNoneBehind(cfg, S, s);
  }

  lemma ServerNoneBehind(cfg: Config, S: System, s: nat)
    requires Inv(cfg, S) && s < |S.servers|
    ensures NoneBehind(S, S.servers[s].minClock)
  {
    var sv := S.servers[s];
    assert ServerOk(cfg, S, s, sv);
    forall c | c in S.clients ensures sv.minClock <= S.clients[c].minClock {
      ServerBehind(cfg, S, s, sv, c);
    }
  }

  /** A server has rows of its own only. */
  ghost predicate OwnRows(cfg: Config, S: System) {
    forall s, k | 0 <= s < |S.servers| && k in S.servers[s].rows :: ServerOf(cfg, k) == s
  }

  lemma {:induction false} ApplyOwnRows(cfg: Config, S: System, S': System, s: nat, c: nat, b: nat)
    requires Apply(cfg, S, S', s, c, b) && OwnRows(cfg, S)
    ensures OwnRows(cfg, S')
  {
    var sv := S.servers[s];
    var sh := Log(S, c, b)[AppliedOf(sv, c, b)];
    HandledFields(cfg, S, sv, s, c, b, sh);
    forall k | k in AddRows(sv.rows, Mine(cfg, s, sh.rows)) ensures ServerOf(cfg, k) == s {}
  }

  ghost predicate SameRows(S: System, S': System) {
    |S'.servers| == |S.servers| && forall s | 0 <= s < |S.servers| :: S'.servers[s].rows == S.servers[s].rows
  }

  lemma {:induction false} ReplySameRows(cfg: Config, S: System, S': System, s: nat, c: nat, k: Key)
    requires Reply(cfg, S, S', s, c, k)
    ensures SameRows(S, S')
  {
  }

  lemma {:induction false} PushSameRows(cfg: Config, S: System, S': System, s: nat, down': map<Ch, seq<Msg>>)
    requires PushAll(cfg, S, S', s, down')
    ensures SameRows(S, S')
  {
  }

  lemma {:induction false} ReceiveSameRows(cfg: Config, S: System, S': System, s: nat, c: nat, b: nat, C': Client)
    requires SysShape(cfg, S) && Receive(cfg, S, S', s, c, b, C')
    ensures SameRows(S, S')
  {
  }

  lemma {:induction false} NextRows(cfg: Config, S: System, S': System)
    requires Next(cfg, S, S')
    ensures SameRows(S, S') || exists s, c, b :: Apply(cfg, S, S', s, c, b)
  {
    if c: nat, C', step :| ClientMoves(cfg, S, S', c, C', step) {
    } else if s: nat, c: nat, k :| Reply(cfg, S, S', s, c, k) {
      ReplySameRows(cfg, S, S', s, c, k);
    } else if s: nat, down' :| PushAll(cfg, S, S', s, down') {
      PushSameRows(cfg, S, S', s, down');
    } else if s: nat, c: nat, b: nat, C' :| Receive(cfg, S, S', s, c, b, C') {
      ReceiveSameRows(cfg, S, S', s, c, b, C');
    }
  }

  lemma {:induction false} NextOwnRows(cfg: Config, S: System, S': System)
    requires Next(cfg, S, S') && OwnRows(cfg, S)
    ensures OwnRows(cfg, S')
  {
    NextRows(cfg, S, S');
    if !SameRows(S, S') {
      var s, c, b :| Apply(cfg, S, S', s, c, b);
      ApplyOwnRows(cfg, S, S', s, c, b);
    }
  }

  /** No update ever reaches a server that does not own its row. */
  lemma {:induction false} ServerKeepsOwnRows(cfg: Config, run: seq<System>, i: nat)
    requires IsRun(cfg, run) && i < |run|
    ensures OwnRows(cfg, run[i])
  {
    if i == 0 {
      assert forall s | 0 <= s < |run[0].servers| :: InitServer(run[0].servers[s]);
    } else {
      ServerKeepsOwnRows(cfg, run, i - 1);
      assert Next(cfg, run[i - 1], run[i - 1 + 1]);
      NextOwnRows(cfg, run[i - 1], run[i]);
    }
  }

  // ------------------------------------------------ reads

  /** A copy whose cut covers `bound` shows every local update tagged below it. */
  lemma OwnCovered(cfg: Config, S: System, c: nat, k: Key, row: Cached, bound: nat, u: Update)
    requires SysShape(cfg, S) && c in S.clients && ClientInv(cfg, c, S.clients[c]) && u.client == c
    requires OwnOnce(cfg, c, S.clients[c], k, row) && Covers(cfg, S, k, row.cut, bound)
    ensures row.content[u] <= if Issued(S, u) && u.key == k then 1 else 0
    ensures Issued(S, u) && u.key == k && u.clock < bound ==> row.content[u] == 1
  {
    var C := S.clients[c];
    var log := BgOf(cfg, C, k).log;
    assert Buffered(C, k, u) + Flushed(cfg, C, k, u) == if u in C.issued && u.key == k then 1 else 0;
    if Issued(S, u) && u.key == k && u.clock < bound {
      assert Held(cfg, S, k, row.cut, u) == 1 == LogCount(log, row.cut[c], k, u);
      LogCountMonotone(log, row.cut[c], |log|, k, u);
    }
  }

  lemma CoveredIsFresh(cfg: Config, S: System, c: nat, k: Key, row: Cached, bound: nat)
    requires SysShape(cfg, S) && (forall i | i in S.clients :: ClientInv(cfg, i, S.clients[i])) && c in S.clients
    requires OwnOnce(cfg, c, S.clients[c], k, row) && CopyOk(cfg, S, c, k, row) && Covers(cfg, S, k, row.cut, bound)
    ensures FreshRow(S, k, bound, row.content)
  {
    forall u ensures
        && row.content[u] <= (if Issued(S, u) && u.key == k then 1 else 0)
        && (Issued(S, u) && u.key == k && u.clock < bound ==> row.content[u] == 1)
    {
      if u.client == c {
        OwnCovered(cfg, S, c, k, row, bound, u);
      } else {
        assert row.content[u] == Held(cfg, S, k, row.cut, u);
        HeldIsOnce(cfg, S, k, row.cut, u);
      }
    }
  }

  lemma CutNoneBehind(cfg: Config, S: System, k: Key, clock: nat, cut: map<nat, nat>)
    requires Inv(cfg, S) && CutOk(cfg, S, k, clock, cut)
    ensures NoneBehind(S, clock)
  {
    forall c | c in S.clients ensures clock <= S.clients[c].minClock {
      var b := Part(cfg, k);
      assert ClientInv(cfg, c, S.clients[c]) && BgOk(cfg, S.clients[c], b);
      ClocksMonotone(Log(S, c, b), cut[c], |Log(S, c, b)|);
    }
  }

  lemma PullReadFresh(cfg: Config, S: System, c: nat, t: nat, k: Key)
    requires Inv(cfg, S) && c in S.clients && cfg.mode == Pull && CanRead(cfg, S.clients[c], t, k)
    ensures FreshRow(S, k, Bound(cfg, S.clients[c].threads[t], k), S.clients[c].cache[k].content)
    ensures NoneBehind(S, Bound(cfg, S.clients[c].threads[t], k))
  {
    var row := S.clients[c].cache[k];
    assert ClientInv(cfg, c, S.clients[c]) && HasCopy(cfg, S.clients[c], k, row);
    CutOkCovers(cfg, S, k, row.clock, row.cut);
    CoveredIsFresh(cfg, S, c, k, row, row.clock);
    CutNoneBehind(cfg, S, k, row.clock, row.cut);
  }

  lemma SystemClockBehind(cfg: Config, S: System, c: nat)
    requires Inv(cfg, S) && PushInv(cfg, S) && c in S.clients
    ensures NoneBehind(S, S.clients[c].sysClock)
  {
    var s, b := ServerOf(cfg, Key(0, 0)), Part(cfg, Key(0, 0));
    assert PairOk(cfg, S, s, c, b);
    EndClockGrows(S.clients[c].bgs[b].seen[s], Down(S.servers[s], c, b));
    ServerNoneBehind(cfg, S, s);
  }

  lemma PushReadFresh(cfg: Config, S: System, c: nat, t: nat, k: Key)
    requires Inv(cfg, S) && PushInv(cfg, S) && c in S.clients && cfg.mode == Push && CanRead(cfg, S.clients[c], t, k)
    ensures FreshRow(S, k, Bound(cfg, S.clients[c].threads[t], k), S.clients[c].cache[k].content)
    ensures NoneBehind(S, Bound(cfg, S.clients[c].threads[t], k))
  {
    var C := S.clients[c];
    var row := C.cache[k];
    var s, b := ServerOf(cfg, k), Part(cfg, k);
    assert ClientInv(cfg, c, C) && HasCopy(cfg, C, k, row);
    assert PairOk(cfg, S, s, c, b) && RowPushOk(cfg, S, S.servers[s], c, C, k, C.bgs[b].seen[s]);
    assert Covers(cfg, S, k, row.cut, C.sysClock);
    assert Bound(cfg, C.threads[t], k) <= C.sysClock;
    CoveredIsFresh(cfg, S, c, k, row, C.sysClock);
    SystemClockBehind(cfg, S, c);
  }

  lemma ReadIsFreshAt(cfg: Config, S: System, c: nat, t: nat, k: Key)
    requires Inv(cfg, S) && (cfg.mode == Push ==> PushInv(cfg, S)) && c in S.clients && CanRead(cfg, S.clients[c], t, k)
    ensures FreshRow(S, k, Bound(cfg, S.clients[c].threads[t], k), S.clients[c].cache[k].content)
    ensures NoneBehind(S, Bound(cfg, S.clients[c].threads[t], k))
  {
    match cfg.mode
    case Pull => PullReadFresh(cfg, S, c, t, k);
    case Push => PushReadFresh(cfg, S, c, t, k);
  }

  /** The SSP guarantee, for both consistency models: the copy a Get may return shows every
      update any thread anywhere made at a clock below the reader's bound, exactly once, and
      no thread is further than that bound behind the reader. */
  lemma GetIsFresh(cfg: Config, run: seq<System>, i: nat, c: nat, t: nat, k: Key)
    requires IsRun(cfg, run) && i < |run| && c in run[i].clients && CanRead(cfg, run[i].clients[c], t, k)
    ensures FreshRow(run[i], k, Bound(cfg, run[i].clients[c].threads[t], k), run[i].clients[c].cache[k].content)
    ensures NoneBehind(run[i], Bound(cfg, run[i].clients[c].threads[t], k))
  {
    RunInv(cfg, run, i);
    if cfg.mode == Push {
      RunPush(cfg, run, i);
    }
    ReadIsFreshAt(cfg, run[i], c, t, k);
  }

  /** Read-my-writes: a cached row is the other clients' updates in the server copy it came
      from, plus each local update that has left its thread exactly once, save those that
      slipped between the copy's rebuilding and its insertion. */
  lemma CachedRowIsExact(cfg: Config, run: seq<System>, i: nat, c: nat, k: Key, u: Update)
    requires IsRun(cfg, run) && i < |run| && c in run[i].clients && k in run[i].clients[c].cache
    ensures var C := run[i].clients[c];
      var row := C.cache[k];
      if u.client == c
      then row.content[u] + row.missed[u] == (if u in C.issued && u.key == k then 1 else 0) - Buffered(C, k, u)
      else row.content[u] == Held(cfg, run[i], k, row.cut, u)
  {
    RunInv(cfg, run, i);
    var C := run[i].clients[c];
    var row := C.cache[k];
    assert ClientInv(cfg, c, C) && HasCopy(cfg, C, k, row) && OwnOnce(cfg, c, C, k, row);
    assert Buffered(C, k, u) + Flushed(cfg, C, k, u) == if u in C.issued && u.key == k then 1 else 0;
  }

  // ------------------------------------------------ SSPPush

  /** The clock a bg is told is always one more than the last (a fatal check in the code), and
      the system clock is never ahead of any clock any bg has seen. */
  lemma PushedClocksAreConsecutive(cfg: Config, run: seq<System>, i: nat, s: nat, c: nat, b: nat)
    requires cfg.mode == Push && IsRun(cfg, run) && i < |run|
    requires s < |run[i].servers| && c in run[i].clients && b < cfg.numBgs
    ensures SysShape(cfg, run[i])
    ensures var C, q := run[i].clients[c], Down(run[i].servers[s], c, b);
      && C.sysClock <= C.bgs[b].seen[s] <= run[i].servers[s].minClock
      && (q != [] && q[0].ClockMsg? ==> q[0].clock == C.bgs[b].seen[s] + 1)
  {
    RunPush(cfg, run, i);
    assert PairOk(cfg, run[i], s, c, b);
    EndClockGrows(run[i].clients[c].bgs[b].seen[s], Down(run[i].servers[s], c, b));
  }

  /** A row that is not dirty has been sent in its current value to every client that has it:
      once nothing is in flight, that client's copy shows what the server's does. */
  lemma CleanRowWasSent(cfg: Config, run: seq<System>, i: nat, s: nat, c: nat, k: Key, u: Update)
    requires cfg.mode == Push && IsRun(cfg, run) && i < |run| && s == ServerOf(cfg, k) < |run[i].servers|
    requires SysShape(cfg, run[i]) && c in run[i].clients && k in run[i].clients[c].cache && !BuildingKey(cfg, run[i].clients[c], k)
    requires Down(run[i].servers[s], c, Part(cfg, k)) == [] && k !in run[i].servers[s].dirty && u.client != c
    ensures run[i].clients[c].cache[k].content[u] == At(run[i].servers[s].rows, k)[u]
  {
    RunInv(cfg, run, i);
    RunPush(cfg, run, i);
    var S := run[i];
    var C, sv, b := S.clients[c], S.servers[s], Part(cfg, k);
    assert PairOk(cfg, S, s, c, b) && RowPushOk(cfg, S, sv, c, C, k, C.bgs[b].seen[s]);
    assert SameHeld(cfg, S, k, C.cache[k].cut, Cut(S, sv, b));
    assert ServerOk(cfg, S, s, sv) && HasCopy(cfg, C, k, C.cache[k]) && CopyOk(cfg, S, c, k, C.cache[k]);
    assert At(sv.rows, k)[u] == Held(cfg, S, k, Cut(S, sv, b), u) == Held(cfg, S, k, C.cache[k].cut, u);
  }

  // ------------------------------------------------ thread caches

  /** Everything the thread has not flushed is in its own copy, once. */
  ghost predicate ShowsOwn(row: Row, unflushed: Row) {
    forall u | unflushed[u] > 0 :: row[u] == 1
  }

  /** A thread's own copy of row `k`: fresh, and with all its own unflushed updates. */
  ghost predicate ThreadRowOk(cfg: Config, S: System, th: Thread, k: Key)
    requires k in th.rows
  {
    FreshRow(S, k, Bound(cfg, th, k), th.rows[k]) && NoneBehind(S, Bound(cfg, th, k)) && ShowsOwn(th.rows[k], At(th.oplog, k))
  }

  ghost predicate ThreadRowsOk(cfg: Config, S: System, th: Thread) {
    forall k | k in th.rows :: ThreadRowOk(cfg, S, th, k)
  }

  ghost predicate AllThreadRowsOk(cfg: Config, S: System) {
    forall c, t | c in S.clients && t in S.clients[c].threads :: ThreadRowsOk(cfg, S, S.clients[c].threads[t])
  }

  /** Clocks only move forward, and what a client newly issues is not behind its own clock. */
  ghost predicate Later(S: System, S': System) {
    && S'.clients.Keys == S.clients.Keys
    && (forall c | c in S.clients :: S.clients[c].issued <= S'.clients[c].issued && S.clients[c].minClock <= S'.clients[c].minClock)
    && (forall c, u | c in S.clients && u in S'.clients[c].issued :: u in S.clients[c].issued || S.clients[c].minClock <= u.clock)
    && (forall c, t | c in S.clients && t in S'.clients[c].threads :: S'.clients[c].minClock <= S'.clients[c].threads[t].ticked)
  }

  lemma FreshRowLater(S: System, S': System, k: Key, bound: nat, row: Row)
    requires Later(S, S') && FreshRow(S, k, bound, row) && NoneBehind(S, bound)
    ensures FreshRow(S', k, bound, row) && NoneBehind(S', bound)
  {
    forall u ensures
        && row[u] <= 1
        && (row[u] == 1 ==> Issued(S', u) && u.key == k)
        && (Issued(S', u) && u.key == k && u.clock < bound ==> row[u] == 1)
    {
    }
  }

  /** A thread that keeps its copies while others move on. */
  lemma SameThreadLater(cfg: Config, S: System, S': System, th: Thread)
    requires Later(S, S') && ThreadRowsOk(cfg, S, th)
    ensures ThreadRowsOk(cfg, S', th)
  {
    forall k | k in th.rows ensures ThreadRowOk(cfg, S', th, k) {
      assert ThreadRowOk(cfg, S, th, k);
      FreshRowLater(S, S', k, Bound(cfg, th, k), th.rows[k]);
    }
  }

  lemma KeptRowsOk(cfg: Config, S: System, th: Thread, th': Thread)
    requires ThreadRowsOk(cfg, S, th) && RowsKept(th, th')
    ensures ThreadRowsOk(cfg, S, th')
  {
    forall k | k in th'.rows ensures ThreadRowOk(cfg, S, th', k) {
      assert ThreadRowOk(cfg, S, th, k) && Bound(cfg, th', k) == Bound(cfg, th, k);
    }
  }

  lemma ThreadRowsLater(cfg: Config, S: System, S': System, th: Thread, th': Thread)
    requires Later(S, S') && ThreadRowsOk(cfg, S, th) && RowsKept(th, th')
    ensures ThreadRowsOk(cfg, S', th')
  {
    SameThreadLater(cfg, S, S', th);
    KeptRowsOk(cfg, S', th, th');
  }

  /** Row copies are only dropped, and while there are any nothing is added to the thread's oplog. */
  ghost predicate RowsKept(th: Thread, th': Thread) {
    forall k | k in th'.rows ::
      && k in th.rows && th'.rows[k] == th.rows[k] && th'.ticked == th.ticked
      && forall u | At(th'.oplog, k)[u] > 0 :: At(th.oplog, k)[u] > 0
  }

  /** No copy shows an update before it is issued. */
  lemma NotYetShown(cfg: Config, S: System, th: Thread, k: Key, u: Update)
    requires ThreadRowsOk(cfg, S, th) && k in th.rows && !Issued(S, u)
    ensures th.rows[k][u] == 0
  {
    assert ThreadRowOk(cfg, S, th, k);
  }

  /** ThreadInc: the thread's own copy takes the new update, which no copy can have yet. */
  lemma ThreadIncRows(cfg: Config, S: System, th: Thread, th': Thread, u: Update)
    requires ThreadRowsOk(cfg, S, th) && Issued(S, u) && th'.ticked == th.ticked && (u.key in th.rows ==> th.rows[u.key][u] == 0)
    requires th'.rows == if u.key in th.rows then th.rows[u.key := th.rows[u.key] + multiset{u}] else th.rows
    requires th'.oplog == th.oplog[u.key := At(th.oplog, u.key) + multiset{u}]
    ensures ThreadRowsOk(cfg, S, th')
  {
    forall k | k in th'.rows ensures ThreadRowOk(cfg, S, th', k) {
      assert ThreadRowOk(cfg, S, th, k) && Bound(cfg, th', k) == Bound(cfg, th, k);
      if k == u.key {
        IncrementedRow(S, k, Bound(cfg, th, k), th.rows[k], At(th.oplog, k), u);
      } else {
        assert th'.rows[k] == th.rows[k] && At(th'.oplog, k) == At(th.oplog, k);
      }
    }
  }

  lemma IncrementedRow(S: System, k: Key, bound: nat, row: Row, unflushed: Row, u: Update)
    requires FreshRow(S, k, bound, row) && ShowsOwn(row, unflushed) && row[u] == 0 && Issued(S, u) && u.key == k
    ensures FreshRow(S, k, bound, row + multiset{u}) && ShowsOwn(row + multiset{u}, unflushed + multiset{u})
  {
    FreshPlus(S, k, bound, row, u);
    OwnPlus(row, unflushed, u);
  }

  lemma OwnPlus(row: Row, unflushed: Row, u: Update)
    requires ShowsOwn(row, unflushed) && row[u] == 0
    ensures ShowsOwn(row + multiset{u}, unflushed + multiset{u})
  {
    forall v | (unflushed + multiset{u})[v] > 0 ensures (row + multiset{u})[v] == 1 {
      assert v != u ==> unflushed[v] > 0;
    }
  }

  lemma FreshPlus(S: System, k: Key, bound: nat, row: Row, u: Update)
    requires FreshRow(S, k, bound, row) && row[u] == 0 && Issued(S, u) && u.key == k
    ensures FreshRow(S, k, bound, row + multiset{u})
  {
    forall v ensures (row + multiset{u})[v] == if v == u then 1 else row[v] {}
  }

  /** ThreadGet: the process copy plus what this thread has not flushed is still each once. */
  lemma ThreadGetRow(cfg: Config, S: System, c: nat, t: nat, k: Key)
    requires Inv(cfg, S) && (cfg.mode == Push ==> PushInv(cfg, S)) && c in S.clients && CanRead(cfg, S.clients[c], t, k)
    ensures var th := S.clients[c].threads[t];
      && FreshRow(S, k, Bound(cfg, th, k), S.clients[c].cache[k].content + At(th.oplog, k))
      && NoneBehind(S, Bound(cfg, th, k))
      && ShowsOwn(S.clients[c].cache[k].content + At(th.oplog, k), At(th.oplog, k))
  {
    ReadIsFreshAt(cfg, S, c, t, k);
    var C := S.clients[c];
    var th, row := C.threads[t], C.cache[k];
    assert ClientInv(cfg, c, C);
    forall u ensures Unflushed(S, k, Bound(cfg, th, k), row.content, At(th.oplog, k), u) {
      BufferedIsMissing(cfg, S, c, t, k, u);
    }
    FreshWith(S, k, Bound(cfg, th, k), row.content, At(th.oplog, k));
  }

  /** What a thread has not flushed is in no cached row, and not behind the bound. */
  ghost predicate Unflushed(S: System, k: Key, bound: nat, row: Row, extra: Row, u: Update) {
    extra[u] > 0 ==> extra[u] == 1 && row[u] == 0 && Issued(S, u) && u.key == k && bound <= u.clock
  }

  lemma BufferedIsMissing(cfg: Config, S: System, c: nat, t: nat, k: Key, u: Update)
    requires SysShape(cfg, S) && c in S.clients && ThreadsOk(c, S.clients[c]) && Conserved(cfg, S.clients[c])
    requires CopiesOk(cfg, c, S.clients[c]) && t in S.clients[c].threads && k in S.clients[c].cache
    ensures var th := S.clients[c].threads[t];
      Unflushed(S, k, Bound(cfg, th, k), S.clients[c].cache[k].content, At(th.oplog, k), u)
  {
    var C := S.clients[c];
    var th := C.threads[t];
    if At(th.oplog, k)[u] > 0 {
      assert u.thread == t && Buffered(C, k, u) == At(th.oplog, k)[u];
      assert Buffered(C, k, u) + Flushed(cfg, C, k, u) == if u in C.issued && u.key == k then 1 else 0;
      assert u in C.issued && u.client == c && OwnOnce(cfg, c, C, k, C.cache[k]);
    }
  }

  lemma FreshWith(S: System, k: Key, bound: nat, row: Row, extra: Row)
    requires FreshRow(S, k, bound, row) && forall u :: Unflushed(S, k, bound, row, extra, u)
    ensures FreshRow(S, k, bound, row + extra)
  {
    forall u ensures
        && (row + extra)[u] <= 1
        && ((row + extra)[u] == 1 ==> Issued(S, u) && u.key == k)
        && (Issued(S, u) && u.key == k && u.clock < bound ==> (row + extra)[u] == 1)
    {
      assert Unflushed(S, k, bound, row, extra, u);
    }
  }

  lemma ThreadGetRows(cfg: Config, S: System, th: Thread, th': Thread, k: Key, row: Row)
    requires ThreadRowsOk(cfg, S, th) && th' == th.(rows := th.rows[k := row])
    requires FreshRow(S, k, Bound(cfg, th, k), row) && NoneBehind(S, Bound(cfg, th, k)) && ShowsOwn(row, At(th.oplog, k))
    ensures ThreadRowsOk(cfg, S, th')
  {
    forall k' | k' in th'.rows ensures ThreadRowOk(cfg, S, th', k') {
      assert k' != k ==> ThreadRowOk(cfg, S, th, k');
      assert Bound(cfg, th', k') == Bound(cfg, th, k');
    }
  }

  lemma StepGrowsIssued(cfg: Config, c: nat, C: Client, C': Client, step: Step)
    requires Shape(cfg, C) && ClientStep(cfg, c, C, C', step)
    ensures C.issued <= C'.issued && C.minClock <= C'.minClock
  {
  }

  ghost predicate MinClocksOk(S: System) {
    forall c, t | c in S.clients && t in S.clients[c].threads :: S.clients[c].minClock <= S.clients[c].threads[t].ticked
  }

  lemma InvMinClocks(cfg: Config, S: System)
    requires Inv(cfg, S)
    ensures MinClocksOk(S)
  {
    forall c, t | c in S.clients && t in S.clients[c].threads ensures S.clients[c].minClock <= S.clients[c].threads[t].ticked {
      assert ClientInv(cfg, c, S.clients[c]);
    }
  }

  lemma ClientMovesLater(cfg: Config, S: System, S': System, c: nat, C': Client, step: Step)
    requires SysShape(cfg, S) && c in S.clients && ThreadsOk(c, S.clients[c]) && MinClocksOk(S')
    requires ClientMoves(cfg, S, S', c, C', step)
    ensures Later(S, S')
  {
    StepGrowsIssued(cfg, c, S.clients[c], C', step);
    StepIssues(cfg, c, S.clients[c], C', step);
    IssuedLater(S, S', c, C');
  }

  lemma IssuedLater(S: System, S': System, c: nat, C': Client)
    requires c in S.clients && S' == S.(clients := S.clients[c := C']) && MinClocksOk(S')
    requires S.clients[c].issued <= C'.issued && S.clients[c].minClock <= C'.minClock
    requires forall u | u in C'.issued :: u in S.clients[c].issued || S.clients[c].minClock <= u.clock
    ensures Later(S, S')
  {
  }

  /** A step of one client touches one thread, and only three steps touch its row copies. */
  lemma StepThreads(cfg: Config, c: nat, C: Client, C': Client, step: Step, t: nat)
    requires Shape(cfg, C) && ClientStep(cfg, c, C, C', step) && t in C'.threads
    requires !(step.DoThreadInc? && step.t == t) && !(step.DoThreadGet? && step.t == t)
    ensures t in C.threads
    ensures RowsKept(C.threads[t], C'.threads[t])
  {
    if IsBgStep(step) {
      BgStepThreads(cfg, c, C, C', step);
    }
  }

  ghost predicate IsBgStep(step: Step) {
    step.DoEvict? || step.DoShipBegin? || step.DoShipTable? || step.DoShipRow? || step.DoShipEnd? || step.DoInsert? || step.DoSystemClock?
  }

  lemma BgStepThreads(cfg: Config, c: nat, C: Client, C': Client, step: Step)
    requires Shape(cfg, C) && ClientStep(cfg, c, C, C', step) && IsBgStep(step)
    ensures C'.threads == C.threads
  {
  }

  /** The thread that moved. */
  lemma MovedThreadRows(cfg: Config, S: System, S': System, c: nat, C': Client, step: Step, t: nat)
    requires Inv(cfg, S) && (cfg.mode == Push ==> PushInv(cfg, S)) && c in S.clients && t in C'.threads
    requires t in S.clients[c].threads ==> ThreadRowsOk(cfg, S, S.clients[c].threads[t])
    requires ClientStep(cfg, c, S.clients[c], C', step) && Later(S, S') && S'.clients[c] == C'
    ensures ThreadRowsOk(cfg, S', C'.threads[t])
  {
    if step.DoThreadInc? && step.t == t {
      IncMovedRows(cfg, S, S', c, C', t, step.u);
    } else if step.DoThreadGet? && step.t == t {
      GetMovedRows(cfg, S, S', c, C', t, step.k);
    } else {
      OtherMovedRows(cfg, S, S', c, C', step, t);
    }
  }

  lemma OtherMovedRows(cfg: Config, S: System, S': System, c: nat, C': Client, step: Step, t: nat)
    requires SysShape(cfg, S) && c in S.clients && t in C'.threads && ClientStep(cfg, c, S.clients[c], C', step)
    requires !(step.DoThreadInc? && step.t == t) && !(step.DoThreadGet? && step.t == t)
    requires (t in S.clients[c].threads ==> ThreadRowsOk(cfg, S, S.clients[c].threads[t])) && Later(S, S')
    ensures ThreadRowsOk(cfg, S', C'.threads[t])
  {
    StepThreads(cfg, c, S.clients[c], C', step, t);
    ThreadRowsLater(cfg, S, S', S.clients[c].threads[t], C'.threads[t]);
  }

  lemma IncMovedRows(cfg: Config, S: System, S': System, c: nat, C': Client, t: nat, u: Update)
    requires SysShape(cfg, S) && c in S.clients && ThreadInc(cfg, c, S.clients[c], C', t, u)
    requires ThreadRowsOk(cfg, S, S.clients[c].threads[t]) && Later(S, S') && S'.clients[c] == C'
    ensures ThreadRowsOk(cfg, S', C'.threads[t])
  {
    var th := S.clients[c].threads[t];
    if u.key in th.rows {
      NotYetShown(cfg, S, th, u.key, u);
    }
    SameThreadLater(cfg, S, S', th);
    ThreadIncRows(cfg, S', th, C'.threads[t], u);
  }

  lemma GetMovedRows(cfg: Config, S: System, S': System, c: nat, C': Client, t: nat, k: Key)
    requires Inv(cfg, S) && (cfg.mode == Push ==> PushInv(cfg, S)) && c in S.clients && ThreadGet(cfg, S.clients[c], C', t, k)
    requires ThreadRowsOk(cfg, S, S.clients[c].threads[t]) && Later(S, S')
    ensures ThreadRowsOk(cfg, S', C'.threads[t])
  {
    ThreadGetRow(cfg, S, c, t, k);
    ThreadGetRows(cfg, S, S.clients[c].threads[t], C'.threads[t], k, C'.threads[t].rows[k]);
    SameThreadLater(cfg, S, S', C'.threads[t]);
  }

  lemma ClientMovesThreadRows(cfg: Config, S: System, S': System, c: nat, C': Client, step: Step)
    requires Inv(cfg, S) && (cfg.mode == Push ==> PushInv(cfg, S)) && AllThreadRowsOk(cfg, S) && MinClocksOk(S')
    requires ClientMoves(cfg, S, S', c, C', step)
    ensures AllThreadRowsOk(cfg, S')
  {
    assert ClientInv(cfg, c, S.clients[c]);
    ClientMovesLater(cfg, S, S', c, C', step);
    forall t | t in C'.threads ensures ThreadRowsOk(cfg, S', C'.threads[t]) {
      MovedThreadRows(cfg, S, S', c, C', step, t);
    }
    OtherThreadRows(cfg, S, S', c, C');
  }

  lemma OtherThreadRows(cfg: Config, S: System, S': System, c: nat, C': Client)
    requires c in S.clients && S' == S.(clients := S.clients[c := C']) && Later(S, S') && AllThreadRowsOk(cfg, S)
    requires forall t | t in C'.threads :: ThreadRowsOk(cfg, S', C'.threads[t])
    ensures AllThreadRowsOk(cfg, S')
  {
    forall i, t | i in S'.clients && t in S'.clients[i].threads && i != c ensures ThreadRowsOk(cfg, S', S'.clients[i].threads[t]) {
      ThreadRowsLater(cfg, S, S', S.clients[i].threads[t], S'.clients[i].threads[t]);
    }
  }

  /** A step that leaves every client's threads and clock alone. */
  ghost predicate SameThreads(S: System, S': System) {
    && S'.clients.Keys == S.clients.Keys
    && forall c | c in S.clients ::
         && S'.clients[c].threads == S.clients[c].threads
         && S'.clients[c].issued == S.clients[c].issued && S'.clients[c].minClock == S.clients[c].minClock
  }

  lemma SameThreadsRows(cfg: Config, S: System, S': System)
    requires SameThreads(S, S') && AllThreadRowsOk(cfg, S) && MinClocksOk(S')
    ensures AllThreadRowsOk(cfg, S')
  {
    forall i, t | i in S'.clients && t in S'.clients[i].threads ensures ThreadRowsOk(cfg, S', S'.clients[i].threads[t]) {
      ThreadRowsLater(cfg, S, S', S.clients[i].threads[t], S'.clients[i].threads[t]);
    }
  }

  lemma ServersMoveSameThreads(cfg: Config, S: System, S': System)
    requires Next(cfg, S, S')
    ensures SameThreads(S, S') || exists c, C', step :: ClientMoves(cfg, S, S', c, C', step)
  {
    if s: nat, c: nat, b: nat, C': Client :| Receive(cfg, S, S', s, c, b, C') {
      ReceiveSameThreads(cfg, S, S', s, c, b, C');
    } else if c, C', step :| ClientMoves(cfg, S, S', c, C', step) {
    } else {
      assert S'.clients == S.clients;
    }
  }

  lemma ReceiveSameThreads(cfg: Config, S: System, S': System, s: nat, c: nat, b: nat, C': Client)
    requires SysShape(cfg, S) && Receive(cfg, S, S', s, c, b, C')
    ensures SameThreads(S, S')
  {
    var C := S.clients[c];
    assert C'.threads == C.threads && C'.issued == C.issued && C'.minClock == C.minClock;
  }

  lemma NextThreadRows(cfg: Config, S: System, S': System)
    requires Inv(cfg, S) && (cfg.mode == Push ==> PushInv(cfg, S)) && AllThreadRowsOk(cfg, S) && MinClocksOk(S') && Next(cfg, S, S')
    ensures AllThreadRowsOk(cfg, S')
  {
    ServersMoveSameThreads(cfg, S, S');
    if SameThreads(S, S') {
      SameThreadsRows(cfg, S, S');
    } else {
      var c, C', step :| ClientMoves(cfg, S, S', c, C', step);
      ClientMovesThreadRows(cfg, S, S', c, C', step);
    }
  }

  lemma InitThreadRows(cfg: Config, S: System)
    requires Init(cfg, S)
    ensures AllThreadRowsOk(cfg, S)
  {
    forall c, t | c in S.clients && t in S.clients[c].threads ensures ThreadRowsOk(cfg, S, S.clients[c].threads[t]) {
      assert InitClient(cfg, S.clients[c]);
    }
  }

  /** Everything that holds between steps. */
  ghost predicate Whole(cfg: Config, S: System) {
    Inv(cfg, S) && (cfg.mode == Push ==> PushInv(cfg, S)) && AllThreadRowsOk(cfg, S)
  }

  lemma NextMinClocks(cfg: Config, S: System, S': System)
    requires Inv(cfg, S) && Next(cfg, S, S')
    ensures MinClocksOk(S')
  {
    NextKeeps(cfg, S, S');
    InvMinClocks(cfg, S');
  }

  lemma NextAllThreadRows(cfg: Config, S: System, S': System)
    requires Whole(cfg, S) && Next(cfg, S, S')
    ensures AllThreadRowsOk(cfg, S')
  {
    NextMinClocks(cfg, S, S');
    NextThreadRows(cfg, S, S');
  }

  lemma NextWhole(cfg: Config, S: System, S': System)
    requires Whole(cfg, S) && Next(cfg, S, S')
    ensures Whole(cfg, S')
  {
    NextAllThreadRows(cfg, S, S');
    if cfg.mode == Push {
      NextPush(cfg, S, S');
    }
    NextKeeps(cfg, S, S');
  }

  lemma InitWhole(cfg: Config, S: System)
    requires Init(cfg, S)
    ensures Whole(cfg, S)
  {
    InitThreadRows(cfg, S);
    InitPush(cfg, S);
    InitInv(cfg, S);
  }

  lemma {:induction false} RunWhole(cfg: Config, run: seq<System>, i: nat)
    requires IsRun(cfg, run) && i < |run|
    ensures Whole(cfg, run[i])
  {
    if i == 0 {
      InitWhole(cfg, run[0]);
    } else {
      RunWhole(cfg, run, i - 1);
      assert Next(cfg, run[i - 1], run[i - 1 + 1]);
      NextWhole(cfg, run[i - 1], run[i]);
    }
  }

  /** The rows a thread keeps to itself are as fresh as the reads that fetched them promised,
      for as long as it keeps them. */
  lemma ThreadRowsStayFresh(cfg: Config, run: seq<System>, i: nat)
    requires IsRun(cfg, run) && i < |run|
    ensures AllThreadRowsOk(cfg, run[i])
  {
    RunWhole(cfg, run, i);
  }
}
