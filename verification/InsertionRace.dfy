/** The window between rebuilding a row and inserting it.

    When a row has no oplog entry its lock is not held while the rebuilt copy waits to be
    inserted. An Inc or a flush in that window reaches the oplog, and so the server, but not
    the copy. This module says exactly which steps do that and what a run without them keeps. */
module InsertionRace {
  import opened PsTypes
  import opened ClientNode
  import opened ClientProofs
  import opened Protocol
  import opened ProtocolProofs
  import opened SspTheorems

  /** The step delivers an update to a row whose rebuilt copy is not inserted yet. */
  ghost predicate Races(cfg: Config, C: Client, step: Step)
    requires Shape(cfg, C)
  {
    match step
    case DoInc(t, u) => BuildingKey(cfg, C, u.key)
    case DoFlushRow(t, k) =>
      BuildingKey(cfg, C, k) && t in C.threads && At(C.threads[t].oplog, k) != multiset{}
    case _ => false
  }

  /** Every copy the client holds or is inserting shows all its flushed updates. */
  ghost predicate NoneMissed(cfg: Config, C: Client)
    requires Shape(cfg, C)
  {
    forall k, row | HasCopy(cfg, C, k, row) :: row.missed == multiset{}
  }

  lemma DeliverMisses(cfg: Config, C: Client, C': Client, k: Key, r: Row)
    requires Shape(cfg, C) && Shape(cfg, C') && NoneMissed(cfg, C)
    requires C'.cache == Deliver(cfg, C, k, r).cache && C'.bgs == Deliver(cfg, C, k, r).bgs
    ensures NoneMissed(cfg, C') <==> !BuildingKey(cfg, C, k) || r == multiset{}
  {
    forall k', row' | HasCopy(cfg, C', k', row')
      ensures row'.missed == if BuildingKey(cfg, C, k) && k' == k && !(k in C'.cache && C'.cache[k] == row') then r else multiset{}
    {
      if k' in C'.cache && C'.cache[k'] == row' {
        assert HasCopy(cfg, C, k', C.cache[k']);
      } else {
        assert HasCopy(cfg, C, k', BgOf(cfg, C, k').building.value.row);
      }
    }
    if BuildingKey(cfg, C, k) {
      var built, built' := BgOf(cfg, C, k).building.value.row, BgOf(cfg, C', k).building.value.row;
      assert HasCopy(cfg, C, k, built) && built'.missed == built.missed + r;
      assert HasCopy(cfg, C', k, built');
    }
  }

  /** From a client that misses nothing, a step makes it miss something if and only if it races. */
  lemma MissesIffRaces(cfg: Config, c: nat, C: Client, C': Client, step: Step)
    requires ClientInv(cfg, c, C) && Shape(cfg, C') && ClientStep(cfg, c, C, C', step) && NoneMissed(cfg, C)
    ensures NoneMissed(cfg, C') <==> !Races(cfg, C, step)
  {
    match step
    case DoInc(t, u) =>
      assert multiset{u}[u] == 1;
      DeliverMisses(cfg, C, C', u.key, multiset{u});
    case DoFlushRow(t, k) =>
      DeliverMisses(cfg, C, C', k, C.threads[t].oplog[k]);
    case _ =>
      QuietStep(cfg, c, C, C', step);
      assert NoneMissed(cfg, C');
  }

  /** A row with an unsent entry cannot be raced: when its rebuilding ends the entry is held, */
  lemma {:induction false} EntryIsHeld(cfg: Config, c: nat, C: Client, C': Client, k: Key, clock: nat, content: Row, cut: map<nat, nat>)
    requires Shape(cfg, C) && BuildRow(cfg, c, C, C', k, clock, content, cut)
    ensures Shape(cfg, C') && BuildingKey(cfg, C', k) && (Locked(cfg, C', k) <==> k in C.oplog)
  {
  }

  /** it is held until the row is inserted, and until then nothing reaches the row. */
  lemma {:induction false} HeldUntilInserted(cfg: Config, c: nat, C: Client, C': Client, step: Step, k: Key)
    requires Shape(cfg, C) && Shape(cfg, C') && BgsOk(cfg, C) && Locked(cfg, C, k) && ClientStep(cfg, c, C, C', step) && step != DoInsert(Part(cfg, k))
    ensures Locked(cfg, C', k) && At(C'.oplog, k) == At(C.oplog, k)
    ensures BgOf(cfg, C', k).building == BgOf(cfg, C, k).building
    ensures (step.DoInc? ==> step.u.key != k) && (step.DoFlushRow? ==> step.k != k)
  {
    if step.DoShipRow? {
      OtherRowShipped(cfg, C, step.b, step.k, k);
    }
  }

  /** A bg that inserts is not packing, and bgs pack their own rows only. */
  lemma {:induction false} OtherRowShipped(cfg: Config, C: Client, b: nat, shipped: Key, k: Key)
    requires Shape(cfg, C) && BgsOk(cfg, C) && BuildingKey(cfg, C, k)
    requires b < |C.bgs| && C.bgs[b].draft.Some? && shipped in C.bgs[b].taking
    ensures shipped != k && b != Part(cfg, k)
  {
    assert BgOk(cfg, C, b);
  }

  ghost predicate RaceStep(cfg: Config, S: System, S': System)
    requires SysShape(cfg, S)
  {
    exists c, C', step :: ClientMoves(cfg, S, S', c, C', step) && Races(cfg, S.clients[c], step)
  }

  ghost predicate RaceFree(cfg: Config, run: seq<System>) {
    forall i | 0 <= i < |run| - 1 :: SysShape(cfg, run[i]) && !RaceStep(cfg, run[i], run[i + 1])
  }

  ghost predicate NoClientMissed(cfg: Config, S: System) {
    SysShape(cfg, S) && forall c | c in S.clients :: NoneMissed(cfg, S.clients[c])
  }

  lemma ReceivedNoneMissed(cfg: Config, c: nat, C: Client, C': Client, s: nat, b: nat, m: Msg)
    requires Shape(cfg, C) && Shape(cfg, C') && NoneMissed(cfg, C)
    requires if m.RowMsg? then BuildRow(cfg, c, C, C', m.key, m.clock, m.content, m.cut) else SeeClock(cfg, C, C', b, s, m.clock)
    ensures NoneMissed(cfg, C')
  {
    forall k, row | HasCopy(cfg, C', k, row) ensures row.missed == multiset{} {
      assert HasCopy(cfg, C, k, row) || (m.RowMsg? && k == m.key && row.missed == multiset{});
    }
  }

  lemma OneClientNoneMissed(cfg: Config, S: System, S': System, c: nat, C': Client)
    requires NoClientMissed(cfg, S) && c in S.clients && S'.clients == S.clients[c := C'] && SysShape(cfg, S')
    requires Shape(cfg, C') && NoneMissed(cfg, C')
    ensures NoClientMissed(cfg, S')
  {
  }

  lemma ClientMovesNoneMissed(cfg: Config, S: System, S': System, c: nat, C': Client, step: Step)
    requires SysShape(cfg, S) && c in S.clients && ClientInv(cfg, c, S.clients[c]) && SysShape(cfg, S') && NoClientMissed(cfg, S)
    requires ClientMoves(cfg, S, S', c, C', step) && !Races(cfg, S.clients[c], step)
    ensures NoClientMissed(cfg, S')
  {
    assert S'.clients[c] == C' && Shape(cfg, C');
    MissesIffRaces(cfg, c, S.clients[c], C', step);
    OneClientNoneMissed(cfg, S, S', c, C');
  }

  lemma ReceiveNoneMissed(cfg: Config, S: System, S': System, s: nat, c: nat, b: nat, C': Client)
    requires NoClientMissed(cfg, S) && SysShape(cfg, S') && Receive(cfg, S, S', s, c, b, C')
    ensures NoClientMissed(cfg, S')
  {
    ReceivedNoneMissed(cfg, c, S.clients[c], C', s, b, Down(S.servers[s], c, b)[0]);
    OneClientNoneMissed(cfg, S, S', c, C');
  }

  lemma NextNoneMissed(cfg: Config, S: System, S': System)
    requires SysShape(cfg, S) && (forall c | c in S.clients :: ClientInv(cfg, c, S.clients[c]))
    requires SysShape(cfg, S') && NoClientMissed(cfg, S) && Next(cfg, S, S') && !RaceStep(cfg, S, S')
    ensures NoClientMissed(cfg, S')
  {
    if c, C', step :| ClientMoves(cfg, S, S', c, C', step) {
      ClientMovesNoneMissed(cfg, S, S', c, C', step);
    } else if s: nat, c: nat, b: nat, C': Client :| Receive(cfg, S, S', s, c, b, C') {
      ReceiveNoneMissed(cfg, S, S', s, c, b, C');
    } else {
      assert S'.clients == S.clients;
    }
  }

  lemma {:induction false} RaceFreeRun(cfg: Config, run: seq<System>, i: nat)
    requires IsRun(cfg, run) && RaceFree(cfg, run) && i < |run|
    ensures NoClientMissed(cfg, run[i])
  {
    if i > 0 {
      RaceFreeRun(cfg, run, i - 1);
      RunInv(cfg, run, i - 1);
      RunInv(cfg, run, i);
      assert Next(cfg, run[i - 1], run[i - 1 + 1]) && !RaceStep(cfg, run[i - 1], run[i - 1 + 1]);
      NextNoneMissed(cfg, run[i - 1], run[i]);
    }
  }

  /** Exactly-once read-my-writes, without exception, in runs where no step races. */
  lemma RaceFreeReadMyWrites(cfg: Config, run: seq<System>, i: nat, c: nat, k: Key, u: Update)
    requires IsRun(cfg, run) && RaceFree(cfg, run) && i < |run|
    requires c in run[i].clients && k in run[i].clients[c].cache && u.client == c
    ensures var C := run[i].clients[c];
      C.cache[k].content[u] == (if u in C.issued && u.key == k then 1 else 0) - Buffered(C, k, u)
  {
    RaceFreeRun(cfg, run, i);
    CachedRowIsExact(cfg, run, i, c, k, u);
    assert HasCopy(cfg, run[i].clients[c], k, run[i].clients[c].cache[k]);
  }

  // ------------------------------------------------ a run that does race

  // One client with two threads, one bg, one server, under pull SSP. Thread 1 has asked for the row
  // and is blocked until the bg has inserted it; thread 0 runs on, increments the row in the window,
  // and reads it from the process cache afterwards.

  const OneServer: Config := Settings(1, 1, {0}, _ => 0, Pull, _ => 0, _ => 0)
  const TheRow: Key := Key(0, 0)
  const TheUpdate: Update := Update(0, 0, 0, 0, TheRow, 0, 1)

  ghost function Idler(): Thread {
    Thread(0, false, map[], {}, map[])
  }

  ghost function TwoThreads(index: set<Key>): map<nat, Thread> {
    map[0 := Thread(0, false, map[], index, map[]), 1 := Idler()]
  }

  ghost function Start(): System {
    System(map[0 := Client({}, TwoThreads({}), 0, map[], {}, map[], [Bg(0, [], {}, None, None, [0])], 0)],
           [Server(map[], map[], map[], map[], 0, {}, {}, false, map[])])
  }

  ghost function ServerWith(q: seq<Msg>): Server {
    Server(map[], map[], map[], map[], 0, {}, {}, false, map[Ch(0, 0) := q])
  }

  ghost function EmptyCopy(missed: Row): Cached {
    Cached(0, multiset{}, missed, map[0 := 0])
  }

  /** The client, given what it issued, its oplog, its cache and the row it is inserting. */
  ghost function ClientAt(issued: set<Update>, index: set<Key>, oplog: Rows, cache: map<Key, Cached>, building: Option<Build>): Client {
    Client(issued, TwoThreads(index), 0, oplog, {}, cache, [Bg(0, [], {}, None, building, [0])], 0)
  }

  /** The server answers thread 1's request; the bg rebuilds the row; thread 0 increments it; the
      bg inserts it, which wakes thread 1. */
  ghost function RacingRun(): seq<System> {
    var u := TheUpdate;
    var reply := RowMsg(TheRow, 0, multiset{}, map[0 := 0]);
    var oplog: Rows := map[TheRow := multiset{u}];
    [Start(),
     System(Start().clients, [ServerWith([reply])]),
     System(map[0 := ClientAt({}, {}, map[], map[], Some(Build(TheRow, EmptyCopy(multiset{}), false)))], [ServerWith([])]),
     System(map[0 := ClientAt({u}, {TheRow}, oplog, map[], Some(Build(TheRow, EmptyCopy(multiset{u}), false)))], [ServerWith([])]),
     System(map[0 := ClientAt({u}, {TheRow}, oplog, map[TheRow := EmptyCopy(multiset{u})], None)], [ServerWith([])])]
  }

  lemma RacingReply()
    ensures Next(OneServer, RacingRun()[0], RacingRun()[1])
  {
    var S, S' := RacingRun()[0], RacingRun()[1];
    var cfg := OneServer;
    assert SysShape(cfg, S);
    assert Cut(S, S.servers[0], 0) == map[0 := 0];
    assert RowMsgFor(cfg, S, S.servers[0], TheRow) == RowMsg(TheRow, 0, multiset{}, map[0 := 0]);
    var q := [RowMsg(TheRow, 0, multiset{}, map[0 := 0])];
    var down: map<Ch, seq<Msg>> := map[];
    assert Down(S.servers[0], 0, 0) + q == q && down[Ch(0, 0) := q] == map[Ch(0, 0) := q];
    assert S.servers[0].(down := map[Ch(0, 0) := q]) == S'.servers[0];
    assert S'.servers == S.servers[0 := S'.servers[0]];
    assert Reply(cfg, S, S', 0, 0, TheRow);
  }

  lemma RacingReceive()
    ensures Next(OneServer, RacingRun()[1], RacingRun()[2])
  {
    var S, S' := RacingRun()[1], RacingRun()[2];
    var cfg := OneServer;
    assert SysShape(cfg, S);
    var C, C' := S.clients[0], S'.clients[0];
    assert Replay(C.bgs[0].log, 0, 0, TheRow) == multiset{};
    assert multiset{} + multiset{} + At(C.oplog, TheRow) == multiset{};
    assert C'.bgs == C.bgs[0 := C.bgs[0].(building := Some(Build(TheRow, EmptyCopy(multiset{}), false)))];
    assert BuildRow(cfg, 0, C, C', TheRow, 0, multiset{}, map[0 := 0]);
    var down: map<Ch, seq<Msg>> := map[Ch(0, 0) := []];
    assert Down(S.servers[0], 0, 0)[1..] == [] && S.servers[0].down[Ch(0, 0) := []] == down;
    assert S.servers[0].(down := down) == S'.servers[0];
    assert S'.servers == S.servers[0 := S'.servers[0]];
    assert S'.clients == S.clients[0 := C'];
    assert Receive(cfg, S, S', 0, 0, 0, C');
  }

  lemma RacingInc()
    ensures Next(OneServer, RacingRun()[2], RacingRun()[3])
  {
    var S, S' := RacingRun()[2], RacingRun()[3];
    var cfg, u := OneServer, TheUpdate;
    assert SysShape(cfg, S);
    var C, C' := S.clients[0], S'.clients[0];
    assert multiset{} + multiset{u} == multiset{u};
    assert C'.bgs == C.bgs[0 := C'.bgs[0]];
    assert C'.bgs == Deliver(cfg, C, TheRow, multiset{u}).bgs;
    assert At(C.oplog, TheRow) + multiset{u} == multiset{u};
    assert C'.oplog == Deliver(cfg, C, TheRow, multiset{u}).oplog;
    var th := C.threads[0];
    assert th.index + {TheRow} == {TheRow} && C.issued + {u} == {u};
    assert C'.threads[0] == th.(index := {TheRow});
    assert C'.threads == C.threads[0 := C'.threads[0]];
    assert Inc(cfg, 0, C, C', 0, u);
    assert S'.clients == S.clients[0 := C'];
    assert ClientMoves(cfg, S, S', 0, C', DoInc(0, u));
  }

  lemma RacingInsert()
    ensures Next(OneServer, RacingRun()[3], RacingRun()[4])
  {
    var S, S' := RacingRun()[3], RacingRun()[4];
    var cfg := OneServer;
    assert SysShape(cfg, S);
    var C, C' := S.clients[0], S'.clients[0];
    assert C'.bgs == C.bgs[0 := C'.bgs[0]];
    assert InsertRow(cfg, C, C', 0);
    assert S'.clients == S.clients[0 := C'];
    assert ClientMoves(cfg, S, S', 0, C', DoInsert(0));
  }

  lemma RacingSteps(i: nat)
    requires i < 4
    ensures |RacingRun()| == 5 && Next(OneServer, RacingRun()[i], RacingRun()[i + 1])
  {
    if i == 0 {
      RacingReply();
    } else if i == 1 {
      RacingReceive();
    } else if i == 2 {
      RacingInc();
    } else {
      RacingInsert();
    }
  }

  lemma RacingIsRun()
    ensures |RacingRun()| == 5 && IsRun(OneServer, RacingRun())
  {
    RacingStart();
    forall i | 0 <= i < 4 ensures Next(OneServer, RacingRun()[i], RacingRun()[i + 1]) {
      RacingSteps(i);
    }
  }

  lemma RacingStart()
    ensures Init(OneServer, RacingRun()[0])
  {
    assert RacingRun()[0] == Start();
    assert InitClient(OneServer, Start().clients[0]) && InitServer(Start().servers[0]);
  }

  /** A run at whose end thread 0 may read a copy without its own finished Inc, although the
      thread that asked for the row, thread 1, never moved. */
  lemma RacingRunMissesAnUpdate()
    ensures IsRun(OneServer, RacingRun()) && |RacingRun()| == 5 && 0 in RacingRun()[4].clients
    ensures forall i | 0 <= i < 5 :: 0 in RacingRun()[i].clients && 1 in RacingRun()[i].clients[0].threads &&
              RacingRun()[i].clients[0].threads[1] == Idler()
    ensures var C := RacingRun()[4].clients[0];
      && CanRead(OneServer, C, 0, TheRow)
      && TheUpdate in C.issued && TheUpdate.thread == 0 && TheUpdate.key == TheRow
      && Buffered(C, TheRow, TheUpdate) == 0 && C.cache[TheRow].content[TheUpdate] == 0
  {
    RacingIsRun();
    forall i | 0 <= i < 5 ensures 0 in RacingRun()[i].clients && RacingRun()[i].clients[0].threads in {TwoThreads({}), TwoThreads({TheRow})} {
      assert i == 0 || i == 1 || i == 2 || i == 3 || i == 4;
    }
  }
}
