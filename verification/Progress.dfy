/** What a client has begun can be finished: a thread's clock, and a shipment.

    Safety alone would also hold of steps that never happen. Here every flush and every shipment has a
    way to its end, by the client's own steps, and what is there then is said exactly. */
module Progress {
  import opened PsTypes
  import opened ClientNode
  import opened Protocol

  ghost predicate Moves(cfg: Config, c: nat, C: Client, C': Client) {
    Shape(cfg, C) && exists step :: ClientStep(cfg, c, C, C', step)
  }

  /** The client goes through these states by its own steps. */
  ghost predicate Path(cfg: Config, c: nat, path: seq<Client>) {
    path != [] && forall i | 0 <= i < |path| - 1 :: Moves(cfg, c, path[i], path[i + 1])
  }

  ghost function Last(path: seq<Client>): Client
    requires path != []
  {
    path[|path| - 1]
  }

  lemma {:induction false} Longer(cfg: Config, c: nat, C: Client, C': Client, step: Step, rest: seq<Client>)
    requires Shape(cfg, C) && ClientStep(cfg, c, C, C', step) && Path(cfg, c, rest) && rest[0] == C'
    ensures Path(cfg, c, [C] + rest) && Last([C] + rest) == Last(rest)
  {
    var path := [C] + rest;
    forall i | 0 <= i < |path| - 1 ensures Moves(cfg, c, path[i], path[i + 1]) {
      if i > 0 {
        assert Moves(cfg, c, rest[i - 1], rest[i - 1 + 1]);
      }
    }
  }

  lemma {:induction false} Joined(cfg: Config, c: nat, first: seq<Client>, second: seq<Client>)
    requires Path(cfg, c, first) && Path(cfg, c, second) && second[0] == Last(first)
    ensures Path(cfg, c, first + second[1..]) && Last(first + second[1..]) == Last(second) && (first + second[1..])[0] == first[0]
  {
    var path := first + second[1..];
    forall i | 0 <= i < |path| - 1 ensures Moves(cfg, c, path[i], path[i + 1]) {
      if i < |first| - 1 {
        assert Moves(cfg, c, first[i], first[i + 1]);
      } else {
        var j := i - |first| + 1;
        assert Moves(cfg, c, second[j], second[j + 1]);
      }
    }
  }

  // ------------------------------------------------ a thread's clock

  ghost predicate NothingBuilding(C: Client) {
    forall b | 0 <= b < |C.bgs| :: C.bgs[b].building.None?
  }

  /** Thread `t` is inside Clock and no row is being inserted. */
  ghost predicate Clocking(cfg: Config, C: Client, t: nat) {
    Shape(cfg, C) && NothingBuilding(C) && t in C.threads && C.threads[t].clocking
  }

  /** `D` differs from `C` by what thread `t` has flushed: its updates are in the process oplog, and
      rows it has touched are in its index or the shared one. */
  ghost predicate FlushedTo(C: Client, D: Client, t: nat)
    requires t in C.threads && t in D.threads
  {
    var th, th' := C.threads[t], D.threads[t];
    && D.minClock == C.minClock && D.bgs == C.bgs && D.issued == C.issued && th'.ticked == th.ticked
    && (forall k :: At(D.oplog, k) + At(th'.oplog, k) == At(C.oplog, k) + At(th.oplog, k))
    && C.index + th.index <= D.index + th'.index
    && (forall k | At(th.oplog, k) != multiset{} :: At(th'.oplog, k) == At(th.oplog, k) || k in D.index + th'.index)
    && D.threads.Keys == C.threads.Keys && forall t' | t' in C.threads && t' != t :: D.threads[t'] == C.threads[t']
  }

  lemma {:induction false} FlushedToAfter(C: Client, M: Client, D: Client, t: nat)
    requires t in C.threads && t in M.threads && t in D.threads && FlushedTo(C, M, t) && FlushedTo(M, D, t)
    ensures FlushedTo(C, D, t)
  {
    var th, thM, th' := C.threads[t], M.threads[t], D.threads[t];
    forall k ensures At(D.oplog, k) + At(th'.oplog, k) == At(C.oplog, k) + At(th.oplog, k) {
      assert At(M.oplog, k) + At(thM.oplog, k) == At(C.oplog, k) + At(th.oplog, k);
    }
    forall k | At(th.oplog, k) != multiset{} ensures At(th'.oplog, k) == At(th.oplog, k) || k in D.index + th'.index {
      if k in M.index + thM.index {
        assert k in D.index + th'.index;
      }
    }
  }

  ghost function OneFlushed(cfg: Config, C: Client, t: nat, k: Key): Client
    requires Clocking(cfg, C, t) && k in C.threads[t].oplog
  {
    var th := C.threads[t];
    var r := th.oplog[k];
    Deliver(cfg, C, k, r).(threads := C.threads[t := th.(oplog := th.oplog - {k},
                                                        index := if r == multiset{} then th.index else th.index + {k})])
  }

  lemma {:induction false} FlushOne(cfg: Config, c: nat, C: Client, t: nat, k: Key)
    requires Clocking(cfg, C, t) && k in C.threads[t].oplog
    ensures var C' := OneFlushed(cfg, C, t, k);
      && ClientStep(cfg, c, C, C', DoFlushRow(t, k)) && Clocking(cfg, C', t) && FlushedTo(C, C', t)
      && C'.threads[t].oplog == C.threads[t].oplog - {k}
  {
    var C' := OneFlushed(cfg, C, t, k);
    assert !BuildingKey(cfg, C, k);
    var th, th' := C.threads[t], C'.threads[t];
    forall k' ensures At(C'.oplog, k') + At(th'.oplog, k') == At(C.oplog, k') + At(th.oplog, k') {
      if k' == k {
        assert At(C'.oplog, k) == At(C.oplog, k) + th.oplog[k] && At(th'.oplog, k) == multiset{};
      }
    }
  }

  lemma {:induction false} FlushAll(cfg: Config, c: nat, C: Client, t: nat) returns (path: seq<Client>)
    requires Clocking(cfg, C, t)
    ensures Path(cfg, c, path) && path[0] == C && Clocking(cfg, Last(path), t) && FlushedTo(C, Last(path), t)
    ensures Last(path).threads[t].oplog == map[]
    decreases |C.threads[t].oplog|
  {
    if C.threads[t].oplog == map[] {
      path := [C];
    } else {
      var k :| k in C.threads[t].oplog;
      FlushOne(cfg, c, C, t, k);
      var C' := OneFlushed(cfg, C, t, k);
      assert C'.threads[t].oplog.Keys == C.threads[t].oplog.Keys - {k};
      var rest := FlushAll(cfg, c, C', t);
      Longer(cfg, c, C, C', DoFlushRow(t, k), rest);
      path := [C] + rest;
      FlushedToAfter(C, C', Last(path), t);
    }
  }

  lemma {:induction false} FewerRows(rows: Rows, left: Rows, k: Key)
    requires k in rows && k !in left && left.Keys <= rows.Keys
    ensures |left| < |rows|
  {
    assert left.Keys <= rows.Keys - {k};
    Fewer(left.Keys, rows.Keys - {k});
  }

  lemma {:induction false} Fewer(a: set<Key>, b: set<Key>)
    requires a <= b
    ensures |a| <= |b|
  {
    if a != {} {
      var k :| k in a;
      Fewer(a - {k}, b - {k});
    }
  }

  /** The ends of all tables' FlushCache: no row copy is left. */
  lemma {:induction false} DropRows(cfg: Config, c: nat, C: Client, t: nat) returns (path: seq<Client>)
    requires Clocking(cfg, C, t) && C.threads[t].oplog == map[]
    ensures Path(cfg, c, path) && path[0] == C && Clocking(cfg, Last(path), t) && FlushedTo(C, Last(path), t)
    ensures Last(path).threads[t].oplog == map[] && Last(path).threads[t].rows == map[]
    decreases |C.threads[t].rows|
  {
    var th := C.threads[t];
    if th.rows == map[] {
      path := [C];
    } else {
      var k :| k in th.rows;
      var left := map x | x in th.rows && x.table != k.table :: th.rows[x];
      var C' := C.(threads := C.threads[t := th.(rows := left)]);
      assert FlushEnd(cfg, C, C', t, k.table);
      FewerRows(th.rows, left, k);
      var rest := DropRows(cfg, c, C', t);
      Longer(cfg, c, C, C', DoFlushEnd(t, k.table), rest);
      path := [C] + rest;
      FlushedToAfter(C, C', Last(path), t);
    }
  }

  ghost function OneIndexed(cfg: Config, C: Client, t: nat, k: Key): Client
    requires t in C.threads
  {
    var th := C.threads[t];
    var moved := set x | x in th.index && x.table == k.table && Part(cfg, x) == Part(cfg, k);
    C.(index := C.index + moved, threads := C.threads[t := th.(index := th.index - moved)])
  }

  lemma {:induction false} IndexOne(cfg: Config, C: Client, t: nat, k: Key)
    requires Clocking(cfg, C, t) && C.threads[t].oplog == map[] && C.threads[t].rows == map[] && k in C.threads[t].index
    ensures var C' := OneIndexed(cfg, C, t, k);
      && FlushIndex(cfg, C, C', t, k.table, Part(cfg, k)) && Clocking(cfg, C', t) && FlushedTo(C, C', t)
      && C'.threads[t].oplog == map[] && C'.threads[t].rows == map[]
      && |C'.threads[t].index| < |C.threads[t].index|
  {
    var th, th' := C.threads[t], OneIndexed(cfg, C, t, k).threads[t];
    assert th'.index <= th.index - {k};
    Fewer(th'.index, th.index - {k});
  }

  /** FlushOpLogIndex of every table and partition: nothing is left in the thread's own index. */
  lemma {:induction false} DropIndex(cfg: Config, c: nat, C: Client, t: nat) returns (path: seq<Client>)
    requires Clocking(cfg, C, t) && C.threads[t].oplog == map[] && C.threads[t].rows == map[]
    ensures Path(cfg, c, path) && path[0] == C && Clocking(cfg, Last(path), t) && FlushedTo(C, Last(path), t)
    ensures Last(path).threads[t].oplog == map[] && Last(path).threads[t].rows == map[] && Last(path).threads[t].index == {}
    decreases |C.threads[t].index|
  {
    var th := C.threads[t];
    if th.index == {} {
      path := [C];
    } else {
      var k :| k in th.index;
      var C' := OneIndexed(cfg, C, t, k);
      IndexOne(cfg, C, t, k);
      var rest := DropIndex(cfg, c, C', t);
      Longer(cfg, c, C, C', DoFlushIndex(t, k.table, Part(cfg, k)), rest);
      path := [C] + rest;
      FlushedToAfter(C, C', Last(path), t);
    }
  }

  /** Clock can be called and finished, whatever the thread's own caches hold. */
  lemma {:induction false} ClockCompletes(cfg: Config, c: nat, C: Client, t: nat) returns (path: seq<Client>)
    requires Shape(cfg, C) && NothingBuilding(C) && t in C.threads && !C.threads[t].clocking
    ensures Path(cfg, c, path) && path[0] == C && t in Last(path).threads && Shape(cfg, Last(path))
    ensures var D, th := Last(path), C.threads[t];
      && D.threads[t] == Thread(th.ticked + 1, false, map[], {}, map[])
      && (forall k :: At(D.oplog, k) == At(C.oplog, k) + At(th.oplog, k))
      && C.index + th.index <= D.index && (forall k | At(th.oplog, k) != multiset{} :: k in D.index)
      && D.minClock == C.minClock + (if UniqueMin(C, t) then 1 else 0)
      && forall b | 0 <= b < |C.bgs| :: D.bgs[b].clockMsgs == C.bgs[b].clockMsgs + if UniqueMin(C, t) then 1 else 0
  {
    var B := C.(threads := C.threads[t := C.threads[t].(clocking := true)]);
    assert ClientStep(cfg, c, C, B, DoClockBegin(t));
    var rest := ClockFinishes(cfg, c, B, t);
    Longer(cfg, c, C, B, DoClockBegin(t), rest);
    path := [C] + rest;
    SameSlowest(C, B, t);
  }

  lemma {:induction false} SameSlowest(C: Client, B: Client, t: nat)
    requires t in C.threads && B.threads.Keys == C.threads.Keys && B.minClock == C.minClock
    requires forall x | x in C.threads :: B.threads[x].ticked == C.threads[x].ticked
    ensures UniqueMin(C, t) <==> UniqueMin(B, t)
  {
  }

  /** Clock can be finished: the thread's clock is one more, all its updates are in the process oplog, once,
      the rows they touched are in the shared index, and if it was the sole slowest thread every bg
      is told. */
  lemma {:induction false} ClockFinishes(cfg: Config, c: nat, C: Client, t: nat) returns (path: seq<Client>)
    requires Clocking(cfg, C, t)
    ensures Path(cfg, c, path) && path[0] == C && t in Last(path).threads && Shape(cfg, Last(path))
    ensures var D, th := Last(path), C.threads[t];
      && D.threads[t] == Thread(th.ticked + 1, false, map[], {}, map[])
      && (forall k :: At(D.oplog, k) == At(C.oplog, k) + At(th.oplog, k))
      && C.index + th.index <= D.index && (forall k | At(th.oplog, k) != multiset{} :: k in D.index)
      && D.minClock == C.minClock + (if UniqueMin(C, t) then 1 else 0)
      && forall b | 0 <= b < |C.bgs| :: D.bgs[b].clockMsgs == C.bgs[b].clockMsgs + if UniqueMin(C, t) then 1 else 0
  {
    var first := FlushAll(cfg, c, C, t);
    var second := DropRows(cfg, c, Last(first), t);
    var third := DropIndex(cfg, c, Last(second), t);
    FlushedToAfter(C, Last(first), Last(second), t);
    FlushedToAfter(C, Last(second), Last(third), t);
    Joined(cfg, c, first, second);
    Joined(cfg, c, first + second[1..], third);
    var E := Last(third);
    var D := Ticked(cfg, E, t);
    var upTo := first + second[1..] + third[1..];
    FlushedAll(C, E, t);
    Longer(cfg, c, E, D, DoTick(t), [D]);
    assert [E] + [D] == [E, D];
    Joined(cfg, c, upTo, [E, D]);
    path := upTo + [E, D][1..];
  }

  lemma {:induction false} FlushedAll(C: Client, E: Client, t: nat)
    requires t in C.threads && t in E.threads && FlushedTo(C, E, t) && E.threads[t].oplog == map[] && E.threads[t].index == {}
    ensures forall k :: At(E.oplog, k) == At(C.oplog, k) + At(C.threads[t].oplog, k)
    ensures C.index + C.threads[t].index <= E.index && forall k | At(C.threads[t].oplog, k) != multiset{} :: k in E.index
    ensures UniqueMin(C, t) <==> UniqueMin(E, t)
  {
    var th' := E.threads[t];
    forall k ensures At(E.oplog, k) == At(C.oplog, k) + At(C.threads[t].oplog, k) {
      assert At(E.oplog, k) + At(th'.oplog, k) == At(C.oplog, k) + At(C.threads[t].oplog, k);
    }
  }

  ghost function Ticked(cfg: Config, E: Client, t: nat): (D: Client)
    requires Clocking(cfg, E, t) && E.threads[t].oplog == map[] && E.threads[t].rows == map[] && E.threads[t].index == {}
    ensures Tick(cfg, E, D, t)
  {
    var th := E.threads[t];
    var D := E.(threads := E.threads[t := th.(ticked := th.ticked + 1, clocking := false)]);
    if UniqueMin(E, t)
    then D.(minClock := E.minClock + 1,
            bgs := seq(|E.bgs|, i requires 0 <= i < |E.bgs| => E.bgs[i].(clockMsgs := E.bgs[i].clockMsgs + 1)))
    else D
  }

  // ------------------------------------------------ a shipment

  /** Row `k` is still to be packed by bg `b`. */
  ghost predicate Todo(cfg: Config, C: Client, b: nat, k: Key)
    requires b < |C.bgs| && C.bgs[b].draft.Some?
  {
    Part(cfg, k) == b && (k in C.bgs[b].taking || (k in C.index && k.table in C.bgs[b].draft.value.left))
  }

  /** Bg `b` is packing a version; what is still to do is not in it yet. */
  ghost predicate Packing(cfg: Config, C: Client, b: nat) {
    && Shape(cfg, C) && b < |C.bgs| && C.bgs[b].draft.Some?
    && (forall k | k in C.bgs[b].taking :: Part(cfg, k) == b && k.table !in C.bgs[b].draft.value.left)
    && (forall k | Todo(cfg, C, b, k) :: At(C.bgs[b].draft.value.rows, k) == multiset{})
  }

  /** `D` differs from `C` by what bg `b` has packed: these rows have gone from the process oplog to its
      draft, and nothing else changes but the index. */
  ghost predicate PackedTo(cfg: Config, C: Client, D: Client, b: nat)
    requires b < |C.bgs| && C.bgs[b].draft.Some? && b < |D.bgs| && D.bgs[b].draft.Some?
  {
    var bg, bg' := C.bgs[b], D.bgs[b];
    && D.threads == C.threads && D.issued == C.issued && D.cache == C.cache && D.minClock == C.minClock
    && bg'.draft.value.isClock == bg.draft.value.isClock && bg'.log == bg.log && bg'.clockMsgs == bg.clockMsgs
    && bg'.building == bg.building && |D.bgs| == |C.bgs|
    && (forall i | 0 <= i < |C.bgs| && i != b :: D.bgs[i] == C.bgs[i])
    && forall k :: RowPacked(cfg, C, D, b, k)
  }

  ghost predicate RowPacked(cfg: Config, C: Client, D: Client, b: nat, k: Key)
    requires b < |C.bgs| && C.bgs[b].draft.Some? && b < |D.bgs| && D.bgs[b].draft.Some?
  {
    var rows, rows' := C.bgs[b].draft.value.rows, D.bgs[b].draft.value.rows;
    && (Todo(cfg, D, b, k) ==> Todo(cfg, C, b, k))
    && if Todo(cfg, C, b, k) && !Todo(cfg, D, b, k)
       then At(D.oplog, k) == multiset{} && At(rows', k) == At(C.oplog, k)
       else At(D.oplog, k) == At(C.oplog, k) && At(rows', k) == At(rows, k)
  }

  lemma {:induction false} PackedToAfter(cfg: Config, C: Client, M: Client, D: Client, b: nat)
    requires Packing(cfg, C, b) && Packing(cfg, M, b) && Packing(cfg, D, b) && PackedTo(cfg, C, M, b) && PackedTo(cfg, M, D, b)
    ensures PackedTo(cfg, C, D, b)
  {
    forall k ensures RowPacked(cfg, C, D, b, k) {
      assert RowPacked(cfg, C, M, b, k) && RowPacked(cfg, M, D, b, k);
    }
  }

  ghost function RowTaken(C: Client, b: nat, k: Key): Client
    requires b < |C.bgs| && C.bgs[b].draft.Some?
  {
    var bg := C.bgs[b];
    var d := bg.draft.value;
    if k in C.oplog
    then C.(oplog := C.oplog - {k},
            bgs := C.bgs[b := bg.(taking := bg.taking - {k}, draft := Some(d.(rows := d.rows[k := C.oplog[k]])))])
    else C.(bgs := C.bgs[b := bg.(taking := bg.taking - {k})])
  }

  lemma {:induction false} TakeRow(cfg: Config, c: nat, C: Client, b: nat, k: Key)
    requires Packing(cfg, C, b) && k in C.bgs[b].taking
    ensures var C' := RowTaken(C, b, k);
      ClientStep(cfg, c, C, C', DoShipRow(b, k)) && Packing(cfg, C', b) && PackedTo(cfg, C, C', b)
      && C'.bgs[b].draft.value.left == C.bgs[b].draft.value.left && C'.bgs[b].taking == C.bgs[b].taking - {k}
  {
    var C' := RowTaken(C, b, k);
    forall x ensures RowPacked(cfg, C, C', b, x) && (Todo(cfg, C', b, x) <==> Todo(cfg, C, b, x) && x != k) {}
  }

  ghost function TableTaken(cfg: Config, C: Client, b: nat, table: nat): Client
    requires b < |C.bgs| && C.bgs[b].draft.Some?
  {
    var bg := C.bgs[b];
    var d := bg.draft.value;
    var taken := set k | k in C.index && k.table == table && Part(cfg, k) == b;
    C.(index := C.index - taken, bgs := C.bgs[b := bg.(taking := taken, draft := Some(d.(left := d.left - {table})))])
  }

  lemma {:induction false} TakeTable(cfg: Config, c: nat, C: Client, b: nat, table: nat)
    requires Packing(cfg, C, b) && C.bgs[b].taking == {} && table in C.bgs[b].draft.value.left
    ensures var C' := TableTaken(cfg, C, b, table);
      ClientStep(cfg, c, C, C', DoShipTable(b, table)) && Packing(cfg, C', b) && PackedTo(cfg, C, C', b)
      && C'.bgs[b].draft.value.left == C.bgs[b].draft.value.left - {table}
  {
    var C' := TableTaken(cfg, C, b, table);
    forall x ensures RowPacked(cfg, C, C', b, x) && (Todo(cfg, C', b, x) <==> Todo(cfg, C, b, x)) {}
  }

  lemma {:induction false} PackAll(cfg: Config, c: nat, C: Client, b: nat) returns (path: seq<Client>)
    requires Packing(cfg, C, b)
    ensures Path(cfg, c, path) && path[0] == C && Packing(cfg, Last(path), b) && PackedTo(cfg, C, Last(path), b)
    ensures Last(path).bgs[b].taking == {} && Last(path).bgs[b].draft.value.left == {}
    decreases |C.bgs[b].draft.value.left|, |C.bgs[b].taking|, 0
  {
    var bg := C.bgs[b];
    if bg.taking != {} {
      var k :| k in bg.taking;
      TakeRow(cfg, c, C, b, k);
      path := PackOn(cfg, c, C, RowTaken(C, b, k), DoShipRow(b, k), b);
    } else if bg.draft.value.left != {} {
      var table :| table in bg.draft.value.left;
      TakeTable(cfg, c, C, b, table);
      path := PackOn(cfg, c, C, TableTaken(cfg, C, b, table), DoShipTable(b, table), b);
    } else {
      path := [C];
    }
  }

  /** One step of packing, then the rest. */
  lemma {:induction false} PackOn(cfg: Config, c: nat, C: Client, C': Client, step: Step, b: nat) returns (path: seq<Client>)
    requires Packing(cfg, C, b) && ClientStep(cfg, c, C, C', step) && Packing(cfg, C', b) && PackedTo(cfg, C, C', b)
    requires var bg, bg' := C.bgs[b], C'.bgs[b];
      |bg'.draft.value.left| < |bg.draft.value.left|
      || (|bg'.draft.value.left| == |bg.draft.value.left| && |bg'.taking| < |bg.taking|)
    ensures Path(cfg, c, path) && path[0] == C && Packing(cfg, Last(path), b) && PackedTo(cfg, C, Last(path), b)
    ensures Last(path).bgs[b].taking == {} && Last(path).bgs[b].draft.value.left == {}
    decreases |C'.bgs[b].draft.value.left|, |C'.bgs[b].taking|, 1
  {
    var rest := PackAll(cfg, c, C', b);
    Longer(cfg, c, C, C', step, rest);
    path := [C] + rest;
    PackedToAfter(cfg, C, C', Last(path), b);
  }

  ghost predicate Shippable(cfg: Config, C: Client, b: nat, k: Key) {
    k in C.index && Part(cfg, k) == b
  }

  /** A shipment can be finished: one version is sent, and it carries the unsent updates of exactly the
      indexed rows of the partition, which leave the process oplog; nothing else changes. */
  lemma {:induction false} ShipmentFinishes(cfg: Config, c: nat, C: Client, b: nat, isClock: bool) returns (path: seq<Client>)
    requires Shape(cfg, C) && Idle(cfg, C, b) && C.bgs[b].taking == {} && (isClock ==> C.bgs[b].clockMsgs > 0)
    requires forall k | k in C.index :: k.table in cfg.tables
    ensures Path(cfg, c, path) && path[0] == C && Shape(cfg, Last(path)) && Idle(cfg, Last(path), b)
    ensures var D, n := Last(path), |C.bgs[b].log|;
      && D.threads == C.threads && D.issued == C.issued && D.cache == C.cache && D.minClock == C.minClock
      && (forall i | 0 <= i < |C.bgs| && i != b :: D.bgs[i] == C.bgs[i])
      && D.bgs[b].clockMsgs == C.bgs[b].clockMsgs - (if isClock then 1 else 0)
      && |D.bgs[b].log| == n + 1 && D.bgs[b].log[..n] == C.bgs[b].log && D.bgs[b].log[n].isClock == isClock
      && forall k :: At(D.oplog, k) == (if Shippable(cfg, C, b, k) then multiset{} else At(C.oplog, k))
                     && At(D.bgs[b].log[n].rows, k) == if Shippable(cfg, C, b, k) then At(C.oplog, k) else multiset{}
  {
    var B := Begun(cfg, C, b, isClock);
    var packed := PackAll(cfg, c, B, b);
    Longer(cfg, c, C, B, DoShipBegin(b, isClock), packed);
    var E := Last(packed);
    var D := Ended(E, b);
    Longer(cfg, c, E, D, DoShipEnd(b), [D]);
    assert [E] + [D] == [E, D];
    Joined(cfg, c, [C] + packed, [E, D]);
    path := [C] + packed + [E, D][1..];
    forall k ensures
      At(D.oplog, k) == (if Shippable(cfg, C, b, k) then multiset{} else At(C.oplog, k))
      && At(E.bgs[b].draft.value.rows, k) == if Shippable(cfg, C, b, k) then At(C.oplog, k) else multiset{}
    {
      assert RowPacked(cfg, B, E, b, k);
    }
  }

  ghost function Begun(cfg: Config, C: Client, b: nat, isClock: bool): (B: Client)
    requires Shape(cfg, C) && Idle(cfg, C, b) && C.bgs[b].taking == {} && (isClock ==> C.bgs[b].clockMsgs > 0)
    ensures ShipBegin(cfg, C, B, b, isClock) && Packing(cfg, B, b)
  {
    var bg := C.bgs[b];
    C.(bgs := C.bgs[b := bg.(draft := Some(Draft(isClock, map[], cfg.tables)),
                             clockMsgs := if isClock then bg.clockMsgs - 1 else bg.clockMsgs)])
  }

  ghost function Ended(E: Client, b: nat): Client
    requires b < |E.bgs| && E.bgs[b].draft.Some?
  {
    var bg := E.bgs[b];
    E.(bgs := E.bgs[b := bg.(draft := None, log := bg.log + [Shipment(bg.draft.value.isClock, bg.draft.value.rows)])])
  }
}
