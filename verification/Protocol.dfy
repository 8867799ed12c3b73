/** The whole parameter server: client processes, servers, and reliable FIFO channels.

    What a bg thread has sent is its log; what a server has received from it is the prefix
    `applied`, which makes the upward channel reliable and FIFO by construction. Downward
    channels are explicit sequences. A server may answer a row at any moment: the runs of
    the code, in which it answers requests, are among the runs here. */
module Protocol {
  import opened PsTypes
  import opened ClientNode

  /** A bg thread of a client, and a client's subscription to a row. */
  datatype Ch = Ch(client: nat, bg: nat)
  datatype Sub = Sub(key: Key, client: nat)

  /** A server-to-bg message. A push message carrying many rows is a run of RowMsg; `applied` is how
      many shipments of the receiving bg the server had applied. */
  datatype Msg = RowMsg(key: Key, clock: nat, content: Row, cut: map<nat, nat>) | ClockMsg(clock: nat, applied: nat)

  /** `bgClock`, `clientClock` and `minClock` are the two levels of vector clocks;
      `pushDue` holds from a clock advance until ServerPushRow has run. */
  datatype Server = Server(applied: map<Ch, nat>, rows: Rows,
                           bgClock: map<Ch, nat>, clientClock: map<nat, nat>, minClock: nat,
                           dirty: set<Key>, subs: set<Sub>, pushDue: bool,
                           down: map<Ch, seq<Msg>>)

  datatype System = System(clients: map<nat, Client>, servers: seq<Server>)

  ghost predicate SysShape(cfg: Config, S: System) {
    && |S.servers| == cfg.numServers
    && forall c | c in S.clients :: Shape(cfg, S.clients[c])
  }

  /** What bg (c, b) has sent so far. */
  ghost function Log(S: System, c: nat, b: nat): seq<Shipment> {
    if c in S.clients && b < |S.clients[c].bgs| then S.clients[c].bgs[b].log else []
  }

  // A server's maps start empty and read as zero, like std::map.

  ghost function AppliedOf(sv: Server, c: nat, b: nat): nat {
    if Ch(c, b) in sv.applied then sv.applied[Ch(c, b)] else 0
  }

  ghost function BgClock(sv: Server, c: nat, b: nat): nat {
    if Ch(c, b) in sv.bgClock then sv.bgClock[Ch(c, b)] else 0
  }

  ghost function ClientClock(sv: Server, c: nat): nat {
    if c in sv.clientClock then sv.clientClock[c] else 0
  }

  ghost function Down(sv: Server, c: nat, b: nat): seq<Msg> {
    if Ch(c, b) in sv.down then sv.down[Ch(c, b)] else []
  }

  /** How much of each client's log for partition `b` the server has applied. */
  ghost function Cut(S: System, sv: Server, b: nat): map<nat, nat> {
    map c | c in S.clients :: AppliedOf(sv, c, b)
  }

  // ------------------------------------------------------------------ server steps

  ghost function AddRows(m: Rows, d: Rows): Rows {
    map k | k in m.Keys + d.Keys :: At(m, k) + At(d, k)
  }

  /** The rows of a shipment that belong to server `s`. */
  ghost function Mine(cfg: Config, s: nat, rows: Rows): Rows {
    map k | k in rows && ServerOf(cfg, k) == s :: rows[k]
  }

  /** VectorClock::IsUniqueMin over the bgs of one client, and over the clients. */
  ghost predicate SlowestBg(cfg: Config, sv: Server, c: nat, b: nat) {
    && BgClock(sv, c, b) == ClientClock(sv, c)
    && forall b' | 0 <= b' < cfg.numBgs && b' != b :: BgClock(sv, c, b') != ClientClock(sv, c)
  }

  ghost predicate SlowestClient(S: System, sv: Server, c: nat) {
    && ClientClock(sv, c) == sv.minClock
    && forall c' | c' in S.clients && c' != c :: ClientClock(sv, c') != sv.minClock
  }

  /** Server::Clock: the bg's clock, then the client's, then the server's minimum. */
  ghost function TickServer(cfg: Config, S: System, sv: Server, c: nat, b: nat): Server {
    var t := sv.(bgClock := sv.bgClock[Ch(c, b) := BgClock(sv, c, b) + 1]);
    if !SlowestBg(cfg, sv, c, b) then t
    else
      var v := t.(clientClock := sv.clientClock[c := ClientClock(sv, c) + 1]);
      if !SlowestClient(S, sv, c) then v
      else v.(minClock := sv.minClock + 1, pushDue := true)
  }

  /** The oplog message at the head of the channel from bg (c, b), applied. */
  ghost function AfterOpLog(cfg: Config, sv: Server, s: nat, c: nat, b: nat, sh: Shipment): Server {
    sv.(applied := sv.applied[Ch(c, b) := AppliedOf(sv, c, b) + 1],
        rows := AddRows(sv.rows, Mine(cfg, s, sh.rows)),
        dirty := sv.dirty + Mine(cfg, s, sh.rows).Keys)
  }

  ghost function Handled(cfg: Config, S: System, sv: Server, s: nat, c: nat, b: nat, sh: Shipment): Server {
    var w := AfterOpLog(cfg, sv, s, c, b, sh);
    if sh.isClock then TickServer(cfg, S, w, c, b) else w
  }

  /** HandleOpLogMsg: apply the next shipment of bg (c, b), then tick if it ends a clock. */
  ghost predicate Apply(cfg: Config, S: System, S': System, s: nat, c: nat, b: nat) {
    && s < |S.servers| && c in S.clients && b < cfg.numBgs
    && var sv := S.servers[s];
       && !sv.pushDue
       && AppliedOf(sv, c, b) < |Log(S, c, b)|
       && var sh := Log(S, c, b)[AppliedOf(sv, c, b)];
          S' == S.(servers := S.servers[s := Handled(cfg, S, sv, s, c, b, sh)])
  }

  ghost function RowMsgFor(cfg: Config, S: System, sv: Server, k: Key): Msg {
    RowMsg(k, sv.minClock, At(sv.rows, k), Cut(S, sv, Part(cfg, k)))
  }

  /** ReplyRowRequest to client `c`; under SSPPush the client becomes a subscriber. */
  ghost predicate Reply(cfg: Config, S: System, S': System, s: nat, c: nat, k: Key) {
    && c in S.clients && s < |S.servers| && ServerOf(cfg, k) == s
    && var sv := S.servers[s];
       var b := Part(cfg, k);
       S' == S.(servers := S.servers[s := sv.(
                  down := sv.down[Ch(c, b) := Down(sv, c, b) + [RowMsgFor(cfg, S, sv, k)]],
                  subs := if cfg.mode == Push then sv.subs + {Sub(k, c)} else sv.subs)])
  }

  /** The rows one bg is due in a push: dirty, subscribed by its client, in its partition. */
  ghost predicate Due(cfg: Config, sv: Server, s: nat, c: nat, b: nat, k: Key) {
    k in sv.dirty && Sub(k, c) in sv.subs && Part(cfg, k) == b && ServerOf(cfg, k) == s
  }

  ghost predicate Subscribed(S: System, sv: Server, k: Key) {
    exists c :: c in S.clients && Sub(k, c) in sv.subs
  }

  ghost function RowMsgs(cfg: Config, S: System, sv: Server, ks: seq<Key>): seq<Msg> {
    seq(|ks|, i requires 0 <= i < |ks| => RowMsgFor(cfg, S, sv, ks[i]))
  }

  ghost function ClockMsgFor(sv: Server, c: nat, b: nat): Msg {
    ClockMsg(sv.minClock, AppliedOf(sv, c, b))
  }

  /** ServerPushRow: every due row in some order, then the clock, to every bg. */
  ghost predicate PushAll(cfg: Config, S: System, S': System, s: nat, down': map<Ch, seq<Msg>>) {
    && s < |S.servers| && S.servers[s].pushDue
    && var sv := S.servers[s];
       match cfg.mode
       case Pull => S' == S.(servers := S.servers[s := sv.(pushDue := false)])
       case Push =>
         && (forall c, b | c in S.clients && 0 <= b < cfg.numBgs :: Pushed(cfg, S, sv, s, c, b, down'))
         && S' == S.(servers := S.servers[s := sv.(
                      pushDue := false, down := down',
                      dirty := (set k | k in sv.dirty && !Subscribed(S, sv, k)))])
  }

  /** `down'` extends the channel to bg (c, b) by its due rows and then the new clock. */
  ghost predicate Pushed(cfg: Config, S: System, sv: Server, s: nat, c: nat, b: nat, down': map<Ch, seq<Msg>>) {
    && Ch(c, b) in down'
    && exists ks: seq<Key> ::
         && (forall k :: k in ks <==> Due(cfg, sv, s, c, b, k))
         && down'[Ch(c, b)] == Down(sv, c, b) + RowMsgs(cfg, S, sv, ks) + [ClockMsgFor(sv, c, b)]
  }

  /** Bg (c, b) handles the next message from server `s`. */
  ghost predicate Receive(cfg: Config, S: System, S': System, s: nat, c: nat, b: nat, C': Client)
    requires SysShape(cfg, S)
  {
    && s < |S.servers| && c in S.clients && b < cfg.numBgs
    && var sv := S.servers[s];
       && Down(sv, c, b) != []
       && S' == S.(clients := S.clients[c := C'],
                   servers := S.servers[s := sv.(down := sv.down[Ch(c, b) := Down(sv, c, b)[1..]])])
       && match Down(sv, c, b)[0]
          case RowMsg(k, clock, content, cut) => BuildRow(cfg, c, S.clients[c], C', k, clock, content, cut)
          case ClockMsg(clock, _) => SeeClock(cfg, S.clients[c], C', b, s, clock)
  }

  // ------------------------------------------------------------------ the run

  datatype Step =
    | DoInc(t: nat, u: Update) | DoThreadInc(t: nat, u: Update) | DoFlushRow(t: nat, k: Key) | DoFlushEnd(t: nat, table: nat)
    | DoClockBegin(t: nat) | DoFlushIndex(t: nat, table: nat, b: nat) | DoTick(t: nat) | DoThreadGet(t: nat, k: Key)
    | DoEvict(k: Key) | DoShipBegin(b: nat, isClock: bool) | DoShipTable(b: nat, table: nat) | DoShipRow(b: nat, k: Key) | DoShipEnd(b: nat)
    | DoInsert(b: nat) | DoSystemClock

  /** A step of client `c` that involves no server. */
  ghost predicate ClientStep(cfg: Config, c: nat, C: Client, C': Client, step: Step)
    requires Shape(cfg, C)
  {
    match step
    case DoInc(t, u) => Inc(cfg, c, C, C', t, u)
    case DoThreadInc(t, u) => ThreadInc(cfg, c, C, C', t, u)
    case DoFlushRow(t, k) => FlushRow(cfg, C, C', t, k)
    case DoFlushEnd(t, table) => FlushEnd(cfg, C, C', t, table)
    case DoClockBegin(t) => ClockBegin(cfg, C, C', t)
    case DoFlushIndex(t, table, b) => FlushIndex(cfg, C, C', t, table, b)
    case DoTick(t) => Tick(cfg, C, C', t)
    case DoThreadGet(t, k) => ThreadGet(cfg, C, C', t, k)
    case DoEvict(k) => Evict(cfg, C, C', k)
    case DoShipBegin(b, isClock) => ShipBegin(cfg, C, C', b, isClock)
    case DoShipTable(b, table) => ShipTable(cfg, C, C', b, table)
    case DoShipRow(b, k) => ShipRow(cfg, C, C', b, k)
    case DoShipEnd(b) => ShipEnd(cfg, C, C', b)
    case DoInsert(b) => InsertRow(cfg, C, C', b)
    case DoSystemClock => AdvanceSystemClock(cfg, C, C')
  }

  ghost predicate ClientMoves(cfg: Config, S: System, S': System, c: nat, C': Client, step: Step)
    requires SysShape(cfg, S)
  {
    && c in S.clients
    && ClientStep(cfg, c, S.clients[c], C', step)
    && S' == S.(clients := S.clients[c := C'])
  }

  ghost predicate Next(cfg: Config, S: System, S': System) {
    SysShape(cfg, S) && (
      || (exists c, C', step :: ClientMoves(cfg, S, S', c, C', step))
      || (exists s, c, b :: Apply(cfg, S, S', s, c, b))
      || (exists s, c, k :: Reply(cfg, S, S', s, c, k))
      || (exists s, down' :: PushAll(cfg, S, S', s, down'))
      || (exists s, c, b, C' :: Receive(cfg, S, S', s, c, b, C')))
  }

  ghost predicate InitClient(cfg: Config, C: Client) {
    && Shape(cfg, C) && C.issued == {} && C.minClock == 0 && C.oplog == map[] && C.index == {} && C.cache == map[]
    && C.sysClock == 0
    && (forall t | t in C.threads :: C.threads[t] == Thread(0, false, map[], {}, map[]))
    && (forall b | 0 <= b < |C.bgs| :: C.bgs[b] == Bg(0, [], {}, None, None, seq(cfg.numServers, _ => 0)))
  }

  ghost predicate InitServer(sv: Server) {
    sv == Server(map[], map[], map[], map[], 0, {}, {}, false, map[])
  }

  ghost predicate Init(cfg: Config, S: System) {
    && SysShape(cfg, S)
    && (forall c | c in S.clients :: InitClient(cfg, S.clients[c]))
    && (forall s | 0 <= s < |S.servers| :: InitServer(S.servers[s]))
  }

  /** A finite run from an initial state. */
  ghost predicate IsRun(cfg: Config, run: seq<System>) {
    && |run| > 0 && Init(cfg, run[0])
    && (forall i | 0 <= i < |run| - 1 :: Next(cfg, run[i], run[i + 1]))
  }

  // ------------------------------------------------------------------ invariants

  /** Occurrences of `u` in the part of its client's log that `cut` covers. */
  ghost function Held(cfg: Config, S: System, k: Key, cut: map<nat, nat>, u: Update): nat {
    var log := Log(S, u.client, Part(cfg, k));
    if u.client in cut && cut[u.client] <= |log| then LogCount(log, cut[u.client], k, u) else 0
  }

  /** `cut` is a cut of the logs that `clock` clocks of every client lie below. */
  ghost predicate CutOk(cfg: Config, S: System, k: Key, clock: nat, cut: map<nat, nat>) {
    && cut.Keys == S.clients.Keys
    && forall c | c in S.clients ::
         && cut[c] <= |Log(S, c, Part(cfg, k))|
         && clock <= Clocks(Log(S, c, Part(cfg, k)), cut[c])
  }

  /** The three levels of clocks are ordered and agree with what was received. */
  ghost predicate ClockOk(S: System, sv: Server, c: nat, b: nat) {
    && AppliedOf(sv, c, b) <= |Log(S, c, b)|
    && sv.minClock <= ClientClock(sv, c) <= BgClock(sv, c, b) == Clocks(Log(S, c, b), AppliedOf(sv, c, b))
  }

  ghost predicate ClocksOk(cfg: Config, S: System, sv: Server) {
    forall c, b | c in S.clients && 0 <= b < cfg.numBgs :: ClockOk(S, sv, c, b)
  }

  /** The server's copy is exactly what it received, each update once. */
  ghost predicate RowsOk(cfg: Config, S: System, s: nat, sv: Server) {
    forall k, u | ServerOf(cfg, k) == s :: At(sv.rows, k)[u] == Held(cfg, S, k, Cut(S, sv, Part(cfg, k)), u)
  }

  ghost predicate MsgOk(cfg: Config, S: System, s: nat, b: nat, m: Msg) {
    m.RowMsg? ==>
      && Part(cfg, m.key) == b && ServerOf(cfg, m.key) == s
      && CutOk(cfg, S, m.key, m.clock, m.cut)
      && forall u :: m.content[u] == Held(cfg, S, m.key, m.cut, u)
  }

  ghost predicate MsgsOk(cfg: Config, S: System, s: nat, b: nat, q: seq<Msg>) {
    forall m | m in q :: MsgOk(cfg, S, s, b, m)
  }

  ghost predicate ServerOk(cfg: Config, S: System, s: nat, sv: Server) {
    && ClocksOk(cfg, S, sv)
    && RowsOk(cfg, S, s, sv)
    && forall c, b | c in S.clients && 0 <= b < cfg.numBgs :: MsgsOk(cfg, S, s, b, Down(sv, c, b))
  }

  /** A client's copy of row `k` shows the other clients' updates of its cut, each once. */
  ghost predicate CopyOk(cfg: Config, S: System, c: nat, k: Key, row: Cached) {
    && CutOk(cfg, S, k, row.clock, row.cut)
    && forall u: Update | u.client != c :: row.content[u] == Held(cfg, S, k, row.cut, u)
  }

  /** `row` is a copy of `k` in the cache or one being inserted into it. */
  ghost predicate HasCopy(cfg: Config, C: Client, k: Key, row: Cached)
    requires Shape(cfg, C)
  {
    || (k in C.cache && C.cache[k] == row)
    || (BuildingKey(cfg, C, k) && BgOf(cfg, C, k).building.value.row == row)
  }

  /** All copies client `c` holds agree with the logs. */
  ghost predicate ClientCopiesOk(cfg: Config, S: System, c: nat, C: Client)
    requires Shape(cfg, C)
  {
    forall k, row | HasCopy(cfg, C, k, row) :: CopyOk(cfg, S, c, k, row)
  }

  ghost predicate Inv(cfg: Config, S: System) {
    && SysShape(cfg, S)
    && (forall c | c in S.clients :: ClientInv(cfg, c, S.clients[c]) && ClientCopiesOk(cfg, S, c, S.clients[c]))
    && (forall s | 0 <= s < |S.servers| :: ServerOk(cfg, S, s, S.servers[s]))
  }
}
