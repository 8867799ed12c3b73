/** Vocabulary shared by the parameter-server protocol modules.

    An update is identified by who issued it and when, so a row is the multiset of the
    updates it has absorbed; the numbers stored in a real row are the image of that
    multiset under any commutative accumulation. */
module PsTypes {

  datatype Option<+T> = None | Some(value: T)

  /** A row of a table; row ids are non-negative because -1 and -2 are wire sentinels. */
  datatype Key = Key(table: nat, row: nat)

  /** One Inc: `clock` is the issuing thread's clock at that moment. */
  datatype Update = Update(client: nat, thread: nat, clock: nat, id: nat, key: Key, column: int, delta: int)

  type Row = multiset<Update>
  type Rows = map<Key, Row>

  function At(m: Rows, k: Key): Row {
    if k in m then m[k] else multiset{}
  }

  datatype Mode = Pull | Push

  /** `tables` are the ids of all tables, `staleness` is set per table; `part` and `server` say
      which bg thread and which server own a row. */
  datatype Settings = Settings(numBgs: nat, numServers: nat, tables: set<nat>, staleness: nat -> nat, mode: Mode,
                               part: Key -> nat, server: Key -> nat)

  type Config = s: Settings | forall k :: s.part(k) < s.numBgs && s.server(k) < s.numServers
    ghost witness Settings(1, 1, {}, t => 0, Pull, k => 0, k => 0)

  ghost function Part(cfg: Config, k: Key): (p: nat)
    ensures p < cfg.numBgs
  {
    cfg.part(k)
  }

  ghost function ServerOf(cfg: Config, k: Key): (s: nat)
    ensures s < cfg.numServers
  {
    cfg.server(k)
  }

  /** What one bg thread sends in one version: its rows and whether it ends a clock. */
  datatype Shipment = Shipment(isClock: bool, rows: Rows)

  /** How often update `u` to row `k` occurs in the first `n` shipments. */
  ghost function LogCount(log: seq<Shipment>, n: nat, k: Key, u: Update): nat
    requires n <= |log|
  {
    if n == 0 then 0 else LogCount(log, n - 1, k, u) + At(log[n - 1].rows, k)[u]
  }

  /** How many of the first `n` shipments end a clock. */
  ghost function Clocks(log: seq<Shipment>, n: nat): nat
    requires n <= |log|
  {
    if n == 0 then 0 else Clocks(log, n - 1) + if log[n - 1].isClock then 1 else 0
  }

  /** The updates to row `k` carried by shipments `from` up to `to` (exclusive). */
  ghost function Replay(log: seq<Shipment>, from: nat, to: nat, k: Key): Row
    requires from <= to <= |log|
  {
    if from == to then multiset{} else Replay(log, from, to - 1, k) + At(log[to - 1].rows, k)
  }

  lemma {:induction false} ReplayCounts(log: seq<Shipment>, from: nat, to: nat, k: Key, u: Update)
    requires from <= to <= |log|
    ensures Replay(log, from, to, k)[u] == LogCount(log, to, k, u) - LogCount(log, from, k, u)
  {
    if from < to {
      ReplayCounts(log, from, to - 1, k, u);
    }
  }

  lemma {:induction false} LogCountMonotone(log: seq<Shipment>, n: nat, m: nat, k: Key, u: Update)
    requires n <= m <= |log|
    ensures LogCount(log, n, k, u) <= LogCount(log, m, k, u)
  {
    if n < m {
      LogCountMonotone(log, n, m - 1, k, u);
    }
  }

  lemma {:induction false} ClocksMonotone(log: seq<Shipment>, n: nat, m: nat)
    requires n <= m <= |log|
    ensures Clocks(log, n) <= Clocks(log, m)
  {
    if n < m {
      ClocksMonotone(log, n, m - 1);
    }
  }

  /** A longer log agrees with a shorter one on every prefix of the shorter one. */
  lemma {:induction false} LogCountStable(log: seq<Shipment>, log': seq<Shipment>, n: nat, k: Key, u: Update)
    requires log <= log' && n <= |log|
    ensures LogCount(log', n, k, u) == LogCount(log, n, k, u)
  {
    if n > 0 {
      LogCountStable(log, log', n - 1, k, u);
    }
  }

  lemma {:induction false} ClocksStable(log: seq<Shipment>, log': seq<Shipment>, n: nat)
    requires log <= log' && n <= |log|
    ensures Clocks(log', n) == Clocks(log, n)
  {
    if n > 0 {
      ClocksStable(log, log', n - 1);
    }
  }
}
