/** One client process: application threads, the process oplog and cache, and bg threads.

    Every step is what the code does while it holds one lock or handles one message; the
    fields `issued`, `missed` and `cut` are history that no step reads to decide what to do. */
module ClientNode {
  import opened PsTypes

  /** An application thread. `ticked` counts finished calls of Clock; `clocking` is set
      while it is inside one. `oplog`, `index` and `rows` are its thread cache. */
  datatype Thread = Thread(ticked: nat, clocking: bool, oplog: Rows, index: set<Key>, rows: Rows)

  /** A row copy in the process cache. `cut` is the number of shipments of each client the
      server copy reflected; `missed` are local updates that raced past its insertion. */
  datatype Cached = Cached(clock: nat, content: Row, missed: Row, cut: map<nat, nat>)

  /** A version being packed; `left` are the tables whose index is still to be taken. */
  datatype Draft = Draft(isClock: bool, rows: Rows, left: set<nat>)

  /** A row being rebuilt from a server copy; `locked` when its oplog entry is held. */
  datatype Build = Build(key: Key, row: Cached, locked: bool)

  datatype Bg = Bg(clockMsgs: nat, log: seq<Shipment>, taking: set<Key>, draft: Option<Draft>,
                   building: Option<Build>, seen: seq<nat>)

  datatype Client = Client(issued: set<Update>, threads: map<nat, Thread>, minClock: nat, oplog: Rows,
                           index: set<Key>, cache: map<Key, Cached>, bgs: seq<Bg>, sysClock: nat)

  ghost predicate Shape(cfg: Config, C: Client) {
    |C.bgs| == cfg.numBgs && forall b | 0 <= b < |C.bgs| :: |C.bgs[b].seen| == cfg.numServers
  }

  ghost function BgOf(cfg: Config, C: Client, k: Key): Bg
    requires Shape(cfg, C)
  {
    C.bgs[Part(cfg, k)]
  }

  ghost predicate BuildingKey(cfg: Config, C: Client, k: Key)
    requires Shape(cfg, C)
  {
    BgOf(cfg, C, k).building.Some? && BgOf(cfg, C, k).building.value.key == k
  }

  ghost predicate Locked(cfg: Config, C: Client, k: Key)
    requires Shape(cfg, C)
  {
    BuildingKey(cfg, C, k) && BgOf(cfg, C, k).building.value.locked
  }

  /** The oldest clock a read of row `k` by `th` may show: max(0, clock - staleness). */
  ghost function Stalest(cfg: Config, th: Thread, k: Key): nat {
    if th.ticked < cfg.staleness(k.table) then 0 else th.ticked - cfg.staleness(k.table)
  }

  // ------------------------------------------------------------------ steps

  /** Adds `r` to the oplog entry of `k` and to its cached copy, under the row's lock. */
  ghost function Deliver(cfg: Config, C: Client, k: Key, r: Row): Client
    requires Shape(cfg, C)
  {
    var p := Part(cfg, k);
    var bg := C.bgs[p];
    C.(oplog := C.oplog[k := At(C.oplog, k) + r],
       cache := if k in C.cache then C.cache[k := C.cache[k].(content := C.cache[k].content + r)] else C.cache,
       bgs := if BuildingKey(cfg, C, k)
              then C.bgs[p := bg.(building := Some(bg.building.value.(row :=
                     bg.building.value.row.(missed := bg.building.value.row.missed + r))))]
              else C.bgs)
  }

  ghost predicate CanIssue(cfg: Config, c: nat, C: Client, t: nat, u: Update) {
    && u.key.table in cfg.tables
    && t in C.threads && !C.threads[t].clocking
    && u !in C.issued && u.client == c && u.thread == t && u.clock == C.threads[t].ticked
  }

  /** SSPConsistencyController::Inc: straight into the process oplog and cache. */
  ghost predicate Inc(cfg: Config, c: nat, C: Client, C': Client, t: nat, u: Update)
    requires Shape(cfg, C)
  {
    && CanIssue(cfg, c, C, t, u)
    && !Locked(cfg, C, u.key)
    && var th := C.threads[t];
       C' == Deliver(cfg, C, u.key, multiset{u}).(
               issued := C.issued + {u},
               threads := C.threads[t := th.(index := th.index + {u.key})])
  }

  /** ThreadTable::Inc: into the thread's own oplog and its own copy of the row. */
  ghost predicate ThreadInc(cfg: Config, c: nat, C: Client, C': Client, t: nat, u: Update)
    requires Shape(cfg, C)
  {
    && CanIssue(cfg, c, C, t, u)
    && var th := C.threads[t];
       C' == C.(issued := C.issued + {u},
                threads := C.threads[t := th.(
                  oplog := th.oplog[u.key := At(th.oplog, u.key) + multiset{u}],
                  rows := if u.key in th.rows then th.rows[u.key := th.rows[u.key] + multiset{u}] else th.rows)])
  }

  /** One turn of the first loop of ThreadTable::FlushCache. */
  ghost predicate FlushRow(cfg: Config, C: Client, C': Client, t: nat, k: Key)
    requires Shape(cfg, C)
  {
    && t in C.threads && k in C.threads[t].oplog
    && !Locked(cfg, C, k)
    && var th := C.threads[t];
       var r := th.oplog[k];
       C' == Deliver(cfg, C, k, r).(
               threads := C.threads[t := th.(
                 oplog := th.oplog - {k},
                 index := if r == multiset{} then th.index else th.index + {k})])
  }

  /** The thread's own oplog and row copies of a table are gone. */
  ghost predicate NoOpLog(th: Thread, table: nat) {
    forall k | k in th.oplog :: k.table != table
  }

  ghost predicate NoRows(th: Thread, table: nat) {
    forall k | k in th.rows :: k.table != table
  }

  /** The end of a table's FlushCache: the thread's row copies of that table are dropped. */
  ghost predicate FlushEnd(cfg: Config, C: Client, C': Client, t: nat, table: nat) {
    && t in C.threads && NoOpLog(C.threads[t], table)
    && var th := C.threads[t];
       C' == C.(threads := C.threads[t := th.(rows := map k | k in th.rows && k.table != table :: th.rows[k])])
  }

  /** TableGroup::Clock begins: the thread's clock moves on before anything is flushed. */
  ghost predicate ClockBegin(cfg: Config, C: Client, C': Client, t: nat) {
    && t in C.threads && !C.threads[t].clocking
    && C' == C.(threads := C.threads[t := C.threads[t].(clocking := true)])
  }

  /** One turn of a table's FlushOpLogIndex: its rows of partition `b` become shippable. */
  ghost predicate FlushIndex(cfg: Config, C: Client, C': Client, t: nat, table: nat, b: nat) {
    && t in C.threads && C.threads[t].clocking && NoOpLog(C.threads[t], table) && NoRows(C.threads[t], table)
    && var th := C.threads[t];
       var moved := set k | k in th.index && k.table == table && Part(cfg, k) == b;
       C' == C.(index := C.index + moved, threads := C.threads[t := th.(index := th.index - moved)])
  }

  /** VectorClock::IsUniqueMin over the threads of the process. */
  ghost predicate UniqueMin(C: Client, t: nat)
    requires t in C.threads
  {
    && C.threads[t].ticked == C.minClock
    && forall t' | t' in C.threads && t' != t :: C.threads[t'].ticked != C.minClock
  }

  /** TableGroup::Clock ends: Tick, and a clock message to every bg if the minimum moved. */
  ghost predicate Tick(cfg: Config, C: Client, C': Client, t: nat) {
    && t in C.threads && C.threads[t].clocking
    && C.threads[t].oplog == map[] && C.threads[t].rows == map[] && C.threads[t].index == {}
    && var th := C.threads[t];
       var D := C.(threads := C.threads[t := th.(ticked := th.ticked + 1, clocking := false)]);
       C' == if UniqueMin(C, t)
             then D.(minClock := C.minClock + 1,
                     bgs := seq(|C.bgs|, i requires 0 <= i < |C.bgs| => C.bgs[i].(clockMsgs := C.bgs[i].clockMsgs + 1)))
             else D
  }

  /** Whether Get or ThreadGet may return the cached copy of `k` to thread `t`. */
  ghost predicate CanRead(cfg: Config, C: Client, t: nat, k: Key) {
    && t in C.threads && !C.threads[t].clocking && k in C.cache
    && match cfg.mode
       case Pull => C.cache[k].clock >= Stalest(cfg, C.threads[t], k)
       case Push => C.sysClock >= Stalest(cfg, C.threads[t], k)
  }

  /** ThreadGet on a miss: clone the process copy and add the thread's own updates. */
  ghost predicate ThreadGet(cfg: Config, C: Client, C': Client, t: nat, k: Key) {
    && CanRead(cfg, C, t, k) && k !in C.threads[t].rows
    && var th := C.threads[t];
       C' == C.(threads := C.threads[t := th.(rows := th.rows[k := C.cache[k].content + At(th.oplog, k)])])
  }

  ghost predicate Evict(cfg: Config, C: Client, C': Client, k: Key) {
    C' == C.(cache := C.cache - {k})
  }

  ghost predicate Idle(cfg: Config, C: Client, b: nat) {
    b < |C.bgs| && C.bgs[b].draft.None? && C.bgs[b].building.None?
  }

  /** GetOpLogAndIndex begins. A shipment without a clock may start at any time. */
  ghost predicate ShipBegin(cfg: Config, C: Client, C': Client, b: nat, isClock: bool) {
    && Idle(cfg, C, b)
    && (isClock ==> C.bgs[b].clockMsgs > 0)
    && var bg := C.bgs[b];
       C' == C.(bgs := C.bgs[b := bg.(draft := Some(Draft(isClock, map[], cfg.tables)),
                                      clockMsgs := if isClock then bg.clockMsgs - 1 else bg.clockMsgs)])
  }

  /** One turn of its loop over the tables: the shared index of a table is taken. */
  ghost predicate ShipTable(cfg: Config, C: Client, C': Client, b: nat, table: nat) {
    && b < |C.bgs| && C.bgs[b].draft.Some? && C.bgs[b].taking == {} && table in C.bgs[b].draft.value.left
    && var bg := C.bgs[b];
       var d := bg.draft.value;
       var taken := set k | k in C.index && k.table == table && Part(cfg, k) == b;
       C' == C.(index := C.index - taken,
                bgs := C.bgs[b := bg.(taking := taken, draft := Some(d.(left := d.left - {table})))])
  }

  /** GetEraseOpLog on one indexed row; rows without an entry are skipped. */
  ghost predicate ShipRow(cfg: Config, C: Client, C': Client, b: nat, k: Key) {
    && b < |C.bgs| && C.bgs[b].draft.Some? && k in C.bgs[b].taking
    && var bg := C.bgs[b];
       var d := bg.draft.value;
       C' == if k in C.oplog
             then C.(oplog := C.oplog - {k},
                     bgs := C.bgs[b := bg.(taking := bg.taking - {k},
                                           draft := Some(d.(rows := d.rows[k := C.oplog[k]])))])
             else C.(bgs := C.bgs[b := bg.(taking := bg.taking - {k})])
  }

  /** HandleClockMsg sends the drafted version to every server. */
  ghost predicate ShipEnd(cfg: Config, C: Client, C': Client, b: nat) {
    && b < |C.bgs| && C.bgs[b].draft.Some? && C.bgs[b].taking == {} && C.bgs[b].draft.value.left == {}
    && var bg := C.bgs[b];
       C' == C.(bgs := C.bgs[b := bg.(draft := None,
                                      log := bg.log + [Shipment(bg.draft.value.isClock, bg.draft.value.rows)])])
  }

  /** ApplyOpLogsAndInsertRow up to the end of the oplog lookup: the server copy, plus every
      shipment the server had not applied, plus the unsent oplog entry. */
  ghost predicate BuildRow(cfg: Config, c: nat, C: Client, C': Client, k: Key, clock: nat, content: Row, cut: map<nat, nat>)
    requires Shape(cfg, C)
  {
    var b := Part(cfg, k);
    var bg := C.bgs[b];
    && Idle(cfg, C, b)
    && c in cut && cut[c] <= |bg.log|
    && var row := content + Replay(bg.log, cut[c], |bg.log|, k) + At(C.oplog, k);
       C' == C.(bgs := C.bgs[b := bg.(building := Some(Build(k, Cached(clock, row, multiset{}, cut), k in C.oplog)))])
  }

  /** ProcessStorage::Insert of the rebuilt row. */
  ghost predicate InsertRow(cfg: Config, C: Client, C': Client, b: nat) {
    && b < |C.bgs| && C.bgs[b].building.Some?
    && var bg := C.bgs[b];
       C' == C.(cache := C.cache[bg.building.value.key := bg.building.value.row],
                bgs := C.bgs[b := bg.(building := None)])
  }

  /** The is_clock part of the kServerPushRow case. */
  ghost predicate SeeClock(cfg: Config, C: Client, C': Client, b: nat, s: nat, clock: nat) {
    && Idle(cfg, C, b) && s < |C.bgs[b].seen|
    && C' == C.(bgs := C.bgs[b := C.bgs[b].(seen := C.bgs[b].seen[s := clock])])
  }

  /** system_clock_ += 1, after every bg has seen every server move on. */
  ghost predicate AdvanceSystemClock(cfg: Config, C: Client, C': Client) {
    && (forall b, s | 0 <= b < |C.bgs| && 0 <= s < |C.bgs[b].seen| :: C.sysClock < C.bgs[b].seen[s])
    && C' == C.(sysClock := C.sysClock + 1)
  }

  // ------------------------------------------------------------- invariants

  ghost function DraftCount(bg: Bg, k: Key, u: Update): nat {
    if bg.draft.Some? then At(bg.draft.value.rows, k)[u] else 0
  }

  /** Occurrences of `u` among the flushed local updates: unsent, being sent, or sent. */
  ghost function Flushed(cfg: Config, C: Client, k: Key, u: Update): nat
    requires Shape(cfg, C)
  {
    var bg := BgOf(cfg, C, k);
    At(C.oplog, k)[u] + DraftCount(bg, k, u) + LogCount(bg.log, |bg.log|, k, u)
  }

  ghost function Buffered(C: Client, k: Key, u: Update): nat {
    if u.thread in C.threads then At(C.threads[u.thread].oplog, k)[u] else 0
  }

  ghost predicate ThreadsOk(c: nat, C: Client) {
    && (forall t | t in C.threads :: C.minClock <= C.threads[t].ticked)
    && (forall t, k, u | t in C.threads && At(C.threads[t].oplog, k)[u] > 0 ::
          u.thread == t && u.clock == C.threads[t].ticked)
    && (forall u | u in C.issued :: u.client == c && u.thread in C.threads && u.clock <= C.threads[u.thread].ticked)
  }

  /** Every issued update is in exactly one place, and nothing else is anywhere. */
  ghost predicate Conserved(cfg: Config, C: Client)
    requires Shape(cfg, C)
  {
    forall k, u :: Buffered(C, k, u) + Flushed(cfg, C, k, u) == if u in C.issued && u.key == k then 1 else 0
  }

  /** Unsent updates sit in rows that an index will lead the next shipment to. */
  ghost predicate Indexed(cfg: Config, C: Client)
    requires Shape(cfg, C)
  {
    forall k, u | At(C.oplog, k)[u] > 0 ::
      && u.thread in C.threads
      && (k in BgOf(cfg, C, k).taking || k in C.index || k in C.threads[u.thread].index)
      && (u.clock < C.threads[u.thread].ticked ==> k in BgOf(cfg, C, k).taking || k in C.index)
  }

  ghost predicate BgOk(cfg: Config, C: Client, b: nat)
    requires b < |C.bgs|
  {
    var bg := C.bgs[b];
    var m := Clocks(bg.log, |bg.log|);
    && m + bg.clockMsgs + (if bg.draft.Some? && bg.draft.value.isClock then 1 else 0) == C.minClock
    && (bg.draft.None? ==> bg.taking == {})
    && (forall k | k in bg.taking :: Part(cfg, k) == b)
    && (forall i, k | 0 <= i < |bg.log| && k in bg.log[i].rows :: Part(cfg, k) == b)
    && (bg.draft.Some? ==> forall k | k in bg.draft.value.rows :: Part(cfg, k) == b && k.table !in bg.draft.value.left)
    && (bg.draft.Some? ==> forall k | k in bg.taking :: k.table !in bg.draft.value.left)
    && (bg.draft.Some? ==> bg.taking !! bg.draft.value.rows.Keys && bg.building.None?)
    && (bg.draft.Some? && bg.draft.value.isClock ==>
          forall k, u | Part(cfg, k) == b && At(C.oplog, k)[u] > 0 && u.clock <= m ::
            k in bg.taking || (k in C.index && k.table in bg.draft.value.left))
  }

  ghost predicate BgsOk(cfg: Config, C: Client) {
    forall b | 0 <= b < |C.bgs| :: BgOk(cfg, C, b)
  }

  /** A prefix of the log that ends `m` clocks holds every local update tagged below `m`. */
  ghost predicate LogFresh(cfg: Config, C: Client)
    requires Shape(cfg, C)
  {
    forall u: Update, n: nat {:trigger LogCount(BgOf(cfg, C, u.key).log, n, u.key, u)} |
      u in C.issued && n <= |BgOf(cfg, C, u.key).log| && u.clock < Clocks(BgOf(cfg, C, u.key).log, n) ::
      LogCount(BgOf(cfg, C, u.key).log, n, u.key, u) == 1
  }

  /** Read-my-writes for one copy: each flushed local update once, except those that raced. */
  ghost predicate OwnOnce(cfg: Config, c: nat, C: Client, k: Key, row: Cached)
    requires Shape(cfg, C)
  {
    && c in row.cut && row.cut[c] <= |BgOf(cfg, C, k).log|
    && (forall u: Update | u.client == c :: row.content[u] + row.missed[u] == Flushed(cfg, C, k, u))
    && (forall u | row.missed[u] > 0 ::
          u.client == c && u.key == k && LogCount(BgOf(cfg, C, k).log, row.cut[c], k, u) == 0)
  }

  ghost predicate CopiesOk(cfg: Config, c: nat, C: Client)
    requires Shape(cfg, C)
  {
    && (forall k | k in C.cache :: OwnOnce(cfg, c, C, k, C.cache[k]))
    && (forall b | 0 <= b < |C.bgs| && C.bgs[b].building.Some? ::
          var bd := C.bgs[b].building.value;
          Part(cfg, bd.key) == b && OwnOnce(cfg, c, C, bd.key, bd.row) && (bd.locked ==> bd.row.missed == multiset{}))
  }

  ghost predicate TablesKnown(cfg: Config, C: Client) {
    forall u | u in C.issued :: u.key.table in cfg.tables
  }

  ghost predicate ClientInv(cfg: Config, c: nat, C: Client) {
    && Shape(cfg, C)
    && TablesKnown(cfg, C)
    && ThreadsOk(c, C)
    && Conserved(cfg, C)
    && Indexed(cfg, C)
    && BgsOk(cfg, C)
    && LogFresh(cfg, C)
    && CopiesOk(cfg, c, C)
  }
}
