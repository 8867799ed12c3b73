/** Every step of the whole system keeps its invariant. */
module ProtocolProofs {
  import opened PsTypes
  import opened ClientNode
  import opened ClientProofs
  import opened Protocol

  // ------------------------------------------------ growing logs

  /** The same processes, with logs that have only been appended to. */
  ghost predicate Grow(S: System, S': System) {
    && S'.clients.Keys == S.clients.Keys
    && forall c, b | c in S.clients :: Log(S, c, b) <= Log(S', c, b)
  }

  ghost predicate CutIn(cfg: Config, S: System, k: Key, cut: map<nat, nat>) {
    && cut.Keys == S.clients.Keys
    && forall c | c in S.clients :: cut[c] <= |Log(S, c, Part(cfg, k))|
  }

  lemma HeldStable(cfg: Config, S: System, S': System, k: Key, cut: map<nat, nat>, u: Update)
    requires Grow(S, S') && CutIn(cfg, S, k, cut)
    ensures Held(cfg, S', k, cut, u) == Held(cfg, S, k, cut, u)
  {
    if u.client in cut {
      var log, log' := Log(S, u.client, Part(cfg, k)), Log(S', u.client, Part(cfg, k));
      assert log <= log';
      LogCountStable(log, log', cut[u.client], k, u);
    }
  }

  lemma CutStable(cfg: Config, S: System, S': System, k: Key, clock: nat, cut: map<nat, nat>)
    requires Grow(S, S') && CutOk(cfg, S, k, clock, cut)
    ensures CutOk(cfg, S', k, clock, cut)
  {
    forall c | c in S'.clients
      ensures cut[c] <= |Log(S', c, Part(cfg, k))| && clock <= Clocks(Log(S', c, Part(cfg, k)), cut[c])
    {
      assert Log(S, c, Part(cfg, k)) <= Log(S', c, Part(cfg, k));
      ClocksStable(Log(S, c, Part(cfg, k)), Log(S', c, Part(cfg, k)), cut[c]);
    }
  }

  lemma MsgStable(cfg: Config, S: System, S': System, s: nat, b: nat, m: Msg)
    requires Grow(S, S') && MsgOk(cfg, S, s, b, m)
    ensures MsgOk(cfg, S', s, b, m)
  {
    if m.RowMsg? {
      CutStable(cfg, S, S', m.key, m.clock, m.cut);
      forall u ensures m.content[u] == Held(cfg, S', m.key, m.cut, u) {
        HeldStable(cfg, S, S', m.key, m.cut, u);
      }
    }
  }

  lemma CopyOkStable(cfg: Config, S: System, S': System, c: nat, k: Key, row: Cached)
    requires Grow(S, S') && CopyOk(cfg, S, c, k, row)
    ensures CopyOk(cfg, S', c, k, row)
  {
    CutStable(cfg, S, S', k, row.clock, row.cut);
    forall u: Update | u.client != c ensures row.content[u] == Held(cfg, S', k, row.cut, u) {
      HeldStable(cfg, S, S', k, row.cut, u);
    }
  }

  lemma ClocksOkStable(cfg: Config, S: System, S': System, sv: Server)
    requires Grow(S, S') && ClocksOk(cfg, S, sv)
    ensures ClocksOk(cfg, S', sv)
  {
    forall c, b | c in S'.clients && 0 <= b < cfg.numBgs
      ensures ClockOk(S', sv, c, b)
    {
      assert ClockOk(S, sv, c, b);
      assert Log(S, c, b) <= Log(S', c, b);
      ClocksStable(Log(S, c, b), Log(S', c, b), AppliedOf(sv, c, b));
    }
  }

  lemma CutWithin(cfg: Config, S: System, sv: Server, k: Key)
    requires ClocksOk(cfg, S, sv)
    ensures CutIn(cfg, S, k, Cut(S, sv, Part(cfg, k)))
  {
    forall c | c in S.clients ensures AppliedOf(sv, c, Part(cfg, k)) <= |Log(S, c, Part(cfg, k))| {
      assert ClockOk(S, sv, c, Part(cfg, k));
    }
  }

  lemma HeldCutStable(cfg: Config, S: System, S': System, sv: Server, k: Key, u: Update)
    requires Grow(S, S') && ClocksOk(cfg, S, sv)
    ensures Held(cfg, S', k, Cut(S', sv, Part(cfg, k)), u) == Held(cfg, S, k, Cut(S, sv, Part(cfg, k)), u)
  {
    assert Cut(S', sv, Part(cfg, k)) == Cut(S, sv, Part(cfg, k));
    CutWithin(cfg, S, sv, k);
    HeldStable(cfg, S, S', k, Cut(S, sv, Part(cfg, k)), u);
  }

  lemma RowsOkStable(cfg: Config, S: System, S': System, s: nat, sv: Server)
    requires Grow(S, S') && ClocksOk(cfg, S, sv) && RowsOk(cfg, S, s, sv)
    ensures RowsOk(cfg, S', s, sv)
  {
    forall k, u | ServerOf(cfg, k) == s
      ensures At(sv.rows, k)[u] == Held(cfg, S', k, Cut(S', sv, Part(cfg, k)), u)
    {
      HeldCutStable(cfg, S, S', sv, k, u);
    }
  }

  /** A server that did not move is still right about longer logs. */
  lemma ServerStable(cfg: Config, S: System, S': System, s: nat, sv: Server)
    requires Grow(S, S') && ServerOk(cfg, S, s, sv)
    ensures ServerOk(cfg, S', s, sv)
  {
    ClocksOkStable(cfg, S, S', sv);
    RowsOkStable(cfg, S, S', s, sv);
    forall c, b, m | c in S'.clients && 0 <= b < cfg.numBgs && m in Down(sv, c, b) ensures MsgOk(cfg, S', s, b, m) {
      assert MsgsOk(cfg, S, s, b, Down(sv, c, b));
      MsgStable(cfg, S, S', s, b, m);
    }
  }

  // ------------------------------------------------ client steps

  /** Same server copy, same foreign updates. */
  ghost predicate SameForeign(c: nat, row: Cached, row': Cached) {
    && row'.clock == row.clock && row'.cut == row.cut
    && forall u: Update | u.client != c :: row'.content[u] == row.content[u]
  }

  /** Every copy of the new state comes from one of the old state. */
  ghost predicate CopiesDerive(cfg: Config, c: nat, C: Client, C': Client)
    requires Shape(cfg, C) && Shape(cfg, C')
  {
    forall k, row' | HasCopy(cfg, C', k, row') :: exists row :: HasCopy(cfg, C, k, row) && SameForeign(c, row, row')
  }

  ghost predicate LogsGrow(C: Client, C': Client) {
    |C'.bgs| == |C.bgs| && forall b | 0 <= b < |C.bgs| :: C.bgs[b].log <= C'.bgs[b].log
  }

  lemma DeliverDerives(cfg: Config, c: nat, C: Client, D: Client, C': Client, k: Key, r: Row)
    requires Shape(cfg, C) && D == Deliver(cfg, C, k, r) && Shape(cfg, C')
    requires C'.cache == D.cache && C'.bgs == D.bgs
    requires forall u | r[u] > 0 :: u.client == c
    ensures CopiesDerive(cfg, c, C, C') && LogsGrow(C, C')
  {
    forall k', row' | HasCopy(cfg, C', k', row')
      ensures exists row :: HasCopy(cfg, C, k', row) && SameForeign(c, row, row')
    {
      var row := if k' in C'.cache && C'.cache[k'] == row' then C.cache[k'] else BgOf(cfg, C, k').building.value.row;
      assert HasCopy(cfg, C, k', row) && SameForeign(c, row, row');
    }
  }

  /** Copies are only dropped, moved into the cache, or left alone. */
  lemma KeptDerive(cfg: Config, c: nat, C: Client, C': Client)
    requires Shape(cfg, C) && Shape(cfg, C')
    requires forall k, row | HasCopy(cfg, C', k, row) :: HasCopy(cfg, C, k, row)
    ensures CopiesDerive(cfg, c, C, C')
  {
    forall k, row' | HasCopy(cfg, C', k, row')
      ensures exists row :: HasCopy(cfg, C, k, row) && SameForeign(c, row, row')
    {
      assert HasCopy(cfg, C, k, row') && SameForeign(c, row', row');
    }
  }

  lemma ClientStepKeeps(cfg: Config, c: nat, C: Client, C': Client, step: Step)
    requires ClientInv(cfg, c, C) && ClientStep(cfg, c, C, C', step)
    ensures ClientInv(cfg, c, C')
  {
    match step
    case DoInc(t, u) => IncKeeps(cfg, c, C, C', t, u);
    case DoThreadInc(t, u) => ThreadIncKeeps(cfg, c, C, C', t, u);
    case DoFlushRow(t, k) => FlushKeeps(cfg, c, C, C', t, k);
    case DoFlushEnd(t, table) => OtherAppKeeps(cfg, c, C, C', t);
    case DoClockBegin(t) => OtherAppKeeps(cfg, c, C, C', t);
    case DoFlushIndex(t, table, b) => OtherAppKeeps(cfg, c, C, C', t);
    case DoTick(t) => TickKeeps(cfg, c, C, C', t);
    case DoThreadGet(t, k) => OtherAppKeeps(cfg, c, C, C', t);
    case DoEvict(k) => EvictKeeps(cfg, c, C, C', k);
    case DoShipBegin(b, isClock) => ShipBeginKeeps(cfg, c, C, C', b, isClock);
    case DoShipTable(b, table) => ShipTableKeeps(cfg, c, C, C', b, table);
    case DoShipRow(b, k) => ShipRowKeeps(cfg, c, C, C', b, k);
    case DoShipEnd(b) => ShipEndKeeps(cfg, c, C, C', b);
    case DoInsert(b) => InsertKeeps(cfg, c, C, C', b);
    case DoSystemClock => AdvanceSystemClockKeeps(cfg, c, C, C');
  }

  /** Steps other than updates leave every remaining copy as it was. */
  lemma QuietStep(cfg: Config, c: nat, C: Client, C': Client, step: Step)
    requires Shape(cfg, C) && Shape(cfg, C') && ClientStep(cfg, c, C, C', step)
    requires !step.DoInc? && !step.DoFlushRow?
    requires step.DoInsert? && step.b < |C.bgs| && C.bgs[step.b].building.Some? ==>
               Part(cfg, C.bgs[step.b].building.value.key) == step.b
    ensures forall k, row | HasCopy(cfg, C', k, row) :: HasCopy(cfg, C, k, row)
    ensures LogsGrow(C, C')
  {
  }

  lemma ClientStepDerives(cfg: Config, c: nat, C: Client, C': Client, step: Step)
    requires ClientInv(cfg, c, C) && ClientStep(cfg, c, C, C', step) && Shape(cfg, C')
    ensures CopiesDerive(cfg, c, C, C') && LogsGrow(C, C')
  {
    match step
    case DoInc(t, u) => DeliverDerives(cfg, c, C, Deliver(cfg, C, u.key, multiset{u}), C', u.key, multiset{u});
    case DoFlushRow(t, k) =>
      var r := C.threads[t].oplog[k];
      forall u | r[u] > 0 ensures u.client == c {
        BufferedIsCurrent(cfg, c, C, t, k, u);
      }
      DeliverDerives(cfg, c, C, Deliver(cfg, C, k, r), C', k, r);
    case _ =>
      QuietStep(cfg, c, C, C', step);
      KeptDerive(cfg, c, C, C');
  }

  /** Replacing one client by a later state of itself keeps what holds of all copies. */
  lemma MovedCopies(cfg: Config, S: System, S': System, c: nat, C: Client, C': Client)
    requires Grow(S, S') && Shape(cfg, C) && Shape(cfg, C')
    requires ClientCopiesOk(cfg, S, c, C) && CopiesDerive(cfg, c, C, C')
    ensures ClientCopiesOk(cfg, S', c, C')
  {
    forall k, row' | HasCopy(cfg, C', k, row')
      ensures CopyOk(cfg, S', c, k, row')
    {
      var row :| HasCopy(cfg, C, k, row) && SameForeign(c, row, row');
      CopyOkStable(cfg, S, S', c, k, row);
    }
  }

  lemma ClientCopiesStable(cfg: Config, S: System, S': System, c: nat, C: Client)
    requires Grow(S, S') && Shape(cfg, C) && ClientCopiesOk(cfg, S, c, C)
    ensures ClientCopiesOk(cfg, S', c, C)
  {
    forall k, row | HasCopy(cfg, C, k, row) ensures CopyOk(cfg, S', c, k, row) {
      CopyOkStable(cfg, S, S', c, k, row);
    }
  }

  /** All other parts of the system are still right after client `c` moved on. */
  lemma OthersStable(cfg: Config, S: System, S': System, c: nat)
    requires Inv(cfg, S) && Grow(S, S')
    requires forall i | i in S.clients && i != c :: S'.clients[i] == S.clients[i]
    ensures forall i | i in S'.clients && i != c :: ClientInv(cfg, i, S'.clients[i]) && ClientCopiesOk(cfg, S', i, S'.clients[i])
    ensures forall s | 0 <= s < |S.servers| :: ServerOk(cfg, S', s, S.servers[s])
  {
    forall i | i in S'.clients && i != c
      ensures ClientInv(cfg, i, S'.clients[i]) && ClientCopiesOk(cfg, S', i, S'.clients[i])
    {
      ClientCopiesStable(cfg, S, S', i, S.clients[i]);
    }
    forall s | 0 <= s < |S.servers| ensures ServerOk(cfg, S', s, S.servers[s]) {
      ServerStable(cfg, S, S', s, S.servers[s]);
    }
  }

  lemma GrowByClient(S: System, S': System, c: nat, C': Client)
    requires c in S.clients && S'.clients == S.clients[c := C'] && LogsGrow(S.clients[c], C')
    ensures Grow(S, S')
  {
  }

  lemma ClientMoveInv(cfg: Config, S: System, S': System, c: nat, C': Client)
    requires Inv(cfg, S) && c in S.clients && S' == S.(clients := S.clients[c := C'])
    requires ClientInv(cfg, c, C') && LogsGrow(S.clients[c], C') && ClientCopiesOk(cfg, S', c, C')
    ensures Inv(cfg, S')
  {
    GrowByClient(S, S', c, C');
    OthersStable(cfg, S, S', c);
  }

  lemma ClientMovesKeeps(cfg: Config, S: System, S': System, c: nat, C': Client, step: Step)
    requires Inv(cfg, S) && ClientMoves(cfg, S, S', c, C', step)
    ensures Inv(cfg, S')
  {
    ClientStepKeeps(cfg, c, S.clients[c], C', step);
    ClientStepDerives(cfg, c, S.clients[c], C', step);
    GrowByClient(S, S', c, C');
    MovedCopies(cfg, S, S', c, S.clients[c], C');
    ClientMoveInv(cfg, S, S', c, C');
  }

  // ------------------------------------------------ server steps

  /** Only server `s` changed, to a state that fits the unchanged logs. */
  lemma ServerMoveInv(cfg: Config, S: System, S': System, s: nat, sv': Server)
    requires Inv(cfg, S) && s < |S.servers| && S' == S.(servers := S.servers[s := sv'])
    requires ServerOk(cfg, S, s, sv')
    ensures Inv(cfg, S')
  {
    assert Grow(S, S');
    forall i | 0 <= i < |S'.servers| ensures ServerOk(cfg, S', i, S'.servers[i]) {
      ServerStable(cfg, S, S', i, S'.servers[i]);
    }
    forall c | c in S'.clients ensures ClientCopiesOk(cfg, S', c, S'.clients[c]) {
      ClientCopiesStable(cfg, S, S', c, S.clients[c]);
    }
  }

  /** A shipment holds only its own client's issued updates, none twice. */
  lemma ShipmentIsOwn(cfg: Config, S: System, c: nat, k: Key, n: nat, u: Update)
    requires c in S.clients && ClientInv(cfg, c, S.clients[c])
    requires n < |Log(S, c, Part(cfg, k))| && At(Log(S, c, Part(cfg, k))[n].rows, k)[u] > 0
    ensures u.client == c && u in S.clients[c].issued && u.key == k
  {
    var C := S.clients[c];
    var log := Log(S, c, Part(cfg, k));
    assert log == BgOf(cfg, C, k).log;
    LogCountMonotone(log, n + 1, |log|, k, u);
    assert Buffered(C, k, u) + Flushed(cfg, C, k, u) == if u in C.issued && u.key == k then 1 else 0;
  }

  lemma ShipmentPart(cfg: Config, S: System, c: nat, b: nat, n: nat, k: Key)
    requires c in S.clients && b < cfg.numBgs && BgsOk(cfg, S.clients[c])
    requires n < |Log(S, c, b)| && Part(cfg, k) != b
    ensures k !in Log(S, c, b)[n].rows
  {
    assert BgOk(cfg, S.clients[c], b);
  }

  /** The clock fields after a tick: each level stays at or below the one under it. */
  lemma TickServerClocks(cfg: Config, S: System, sv: Server, c: nat, b: nat, c': nat, b': nat)
    requires c' in S.clients && b' < cfg.numBgs
    requires sv.minClock <= ClientClock(sv, c') <= BgClock(sv, c', b')
    ensures var t := TickServer(cfg, S, sv, c, b);
      && t.minClock <= ClientClock(t, c') <= BgClock(t, c', b')
      && BgClock(t, c', b') == BgClock(sv, c', b') + if c' == c && b' == b then 1 else 0
  {
    if SlowestBg(cfg, sv, c, b) {
      if c' == c && b' != b {
        assert BgClock(sv, c, b') != ClientClock(sv, c);
      }
      if SlowestClient(S, sv, c) && c' != c {
        assert ClientClock(sv, c') != sv.minClock;
      }
    }
  }

  /** One more shipment of bg (c, b) adds its updates to the held count, and nothing else. */
  lemma HeldNext(cfg: Config, S: System, c: nat, k: Key, cut: map<nat, nat>, cut': map<nat, nat>, u: Update)
    requires c in S.clients && ClientInv(cfg, c, S.clients[c])
    requires CutIn(cfg, S, k, cut) && cut[c] < |Log(S, c, Part(cfg, k))| && cut' == cut[c := cut[c] + 1]
    ensures Held(cfg, S, k, cut', u) == Held(cfg, S, k, cut, u) + At(Log(S, c, Part(cfg, k))[cut[c]].rows, k)[u]
  {
    if At(Log(S, c, Part(cfg, k))[cut[c]].rows, k)[u] > 0 {
      ShipmentIsOwn(cfg, S, c, k, cut[c], u);
    }
  }

  lemma AddRowsAt(cfg: Config, s: nat, m: Rows, rows: Rows, k: Key)
    requires ServerOf(cfg, k) == s
    ensures At(AddRows(m, Mine(cfg, s, rows)), k) == At(m, k) + At(rows, k)
  {
  }

  lemma CutAfter(cfg: Config, S: System, s: nat, sv: Server, c: nat, b: nat, sh: Shipment, p: nat)
    requires c in S.clients
    ensures Cut(S, AfterOpLog(cfg, sv, s, c, b, sh), p) ==
            if p == b then Cut(S, sv, b)[c := AppliedOf(sv, c, b) + 1] else Cut(S, sv, p)
  {
  }

  lemma AfterOpLogHeld(cfg: Config, S: System, s: nat, sv: Server, c: nat, b: nat, k: Key, u: Update)
    requires c in S.clients && b < cfg.numBgs && ClientInv(cfg, c, S.clients[c])
    requires CutIn(cfg, S, k, Cut(S, sv, Part(cfg, k))) && AppliedOf(sv, c, b) < |Log(S, c, b)|
    ensures var sh := Log(S, c, b)[AppliedOf(sv, c, b)];
      Held(cfg, S, k, Cut(S, AfterOpLog(cfg, sv, s, c, b, sh), Part(cfg, k)), u) ==
      Held(cfg, S, k, Cut(S, sv, Part(cfg, k)), u) + At(sh.rows, k)[u]
  {
    var n, p := AppliedOf(sv, c, b), Part(cfg, k);
    var cut := Cut(S, sv, p);
    assert Cut(S, AfterOpLog(cfg, sv, s, c, b, Log(S, c, b)[n]), p) == if p == b then cut[c := n + 1] else cut by {
      CutAfter(cfg, S, s, sv, c, b, Log(S, c, b)[n], p);
    }
    assert p == b ==> cut[c] == n;
    HeldMore(cfg, S, c, b, k, cut, n, u);
  }

  /** Shipment `n` of one bg, and no other, joins the cut. */
  lemma HeldMore(cfg: Config, S: System, c: nat, b: nat, k: Key, cut: map<nat, nat>, n: nat, u: Update)
    requires c in S.clients && b < cfg.numBgs && ClientInv(cfg, c, S.clients[c]) && CutIn(cfg, S, k, cut)
    requires n < |Log(S, c, b)| && (Part(cfg, k) == b ==> cut[c] == n)
    ensures Held(cfg, S, k, if Part(cfg, k) == b then cut[c := n + 1] else cut, u) == Held(cfg, S, k, cut, u) + At(Log(S, c, b)[n].rows, k)[u]
  {
    if Part(cfg, k) == b {
      HeldNext(cfg, S, c, k, cut, cut[c := n + 1], u);
    } else {
      ShipmentPart(cfg, S, c, b, n, k);
    }
  }

  lemma AfterOpLogRow(cfg: Config, S: System, s: nat, sv: Server, c: nat, b: nat, k: Key, u: Update)
    requires c in S.clients && b < cfg.numBgs && ServerOf(cfg, k) == s
    requires ClientInv(cfg, c, S.clients[c]) && CutIn(cfg, S, k, Cut(S, sv, Part(cfg, k)))
    requires AppliedOf(sv, c, b) < |Log(S, c, b)|
    requires At(sv.rows, k)[u] == Held(cfg, S, k, Cut(S, sv, Part(cfg, k)), u)
    ensures var w := AfterOpLog(cfg, sv, s, c, b, Log(S, c, b)[AppliedOf(sv, c, b)]);
      At(w.rows, k)[u] == Held(cfg, S, k, Cut(S, w, Part(cfg, k)), u)
  {
    AddRowsAt(cfg, s, sv.rows, Log(S, c, b)[AppliedOf(sv, c, b)].rows, k);
    AfterOpLogHeld(cfg, S, s, sv, c, b, k, u);
  }

  lemma AfterOpLogRows(cfg: Config, S: System, s: nat, sv: Server, c: nat, b: nat)
    requires c in S.clients && b < cfg.numBgs && ClientInv(cfg, c, S.clients[c])
    requires ClocksOk(cfg, S, sv) && RowsOk(cfg, S, s, sv) && AppliedOf(sv, c, b) < |Log(S, c, b)|
    ensures RowsOk(cfg, S, s, AfterOpLog(cfg, sv, s, c, b, Log(S, c, b)[AppliedOf(sv, c, b)]))
  {
    var w := AfterOpLog(cfg, sv, s, c, b, Log(S, c, b)[AppliedOf(sv, c, b)]);
    forall k, u | ServerOf(cfg, k) == s
      ensures At(w.rows, k)[u] == Held(cfg, S, k, Cut(S, w, Part(cfg, k)), u)
    {
      CutWithin(cfg, S, sv, k);
      AfterOpLogRow(cfg, S, s, sv, c, b, k, u);
    }
  }

  /** RowsOk reads two fields of the server. */
  lemma RowsOkFields(cfg: Config, S: System, s: nat, sv: Server, sv': Server)
    requires RowsOk(cfg, S, s, sv) && sv'.rows == sv.rows && sv'.applied == sv.applied
    ensures RowsOk(cfg, S, s, sv')
  {
    forall b ensures Cut(S, sv', b) == Cut(S, sv, b) {}
  }

  /** A tick touches the clocks and the push flag only. */
  lemma TickServerFields(cfg: Config, S: System, sv: Server, c: nat, b: nat)
    ensures var t := TickServer(cfg, S, sv, c, b);
      && t.applied == sv.applied && t.rows == sv.rows && t.dirty == sv.dirty && t.subs == sv.subs && t.down == sv.down
      && (!sv.pushDue ==> t.minClock == sv.minClock + if t.pushDue then 1 else 0)
  {
    var ticked := sv.(bgClock := sv.bgClock[Ch(c, b) := BgClock(sv, c, b) + 1]);
    if SlowestBg(cfg, sv, c, b) {
      var v := ticked.(clientClock := sv.clientClock[c := ClientClock(sv, c) + 1]);
      assert v.applied == sv.applied && v.rows == sv.rows && v.pushDue == sv.pushDue;
    }
  }

  lemma HandledClock(cfg: Config, S: System, s: nat, sv: Server, c: nat, b: nat, c': nat, b': nat)
    requires c in S.clients && b < cfg.numBgs && c' in S.clients && b' < cfg.numBgs
    requires AppliedOf(sv, c, b) < |Log(S, c, b)| && ClockOk(S, sv, c', b')
    ensures ClockOk(S, Handled(cfg, S, sv, s, c, b, Log(S, c, b)[AppliedOf(sv, c, b)]), c', b')
  {
    var sh := Log(S, c, b)[AppliedOf(sv, c, b)];
    var w := AfterOpLog(cfg, sv, s, c, b, sh);
    assert ClientClock(w, c') == ClientClock(sv, c') && BgClock(w, c', b') == BgClock(sv, c', b');
    if sh.isClock {
      TickServerClocks(cfg, S, w, c, b, c', b');
      TickServerFields(cfg, S, w, c, b);
    }
  }

  lemma ApplyClocks(cfg: Config, S: System, s: nat, sv: Server, c: nat, b: nat)
    requires c in S.clients && b < cfg.numBgs && ClocksOk(cfg, S, sv) && AppliedOf(sv, c, b) < |Log(S, c, b)|
    ensures ClocksOk(cfg, S, Handled(cfg, S, sv, s, c, b, Log(S, c, b)[AppliedOf(sv, c, b)]))
  {
    forall c', b' | c' in S.clients && 0 <= b' < cfg.numBgs
      ensures ClockOk(S, Handled(cfg, S, sv, s, c, b, Log(S, c, b)[AppliedOf(sv, c, b)]), c', b')
    {
      HandledClock(cfg, S, s, sv, c, b, c', b');
    }
  }

  lemma HandledFields(cfg: Config, S: System, sv: Server, s: nat, c: nat, b: nat, sh: Shipment)
    requires !sv.pushDue
    ensures var sv', w := Handled(cfg, S, sv, s, c, b, sh), AfterOpLog(cfg, sv, s, c, b, sh);
      && sv'.rows == w.rows && sv'.applied == w.applied && sv'.down == sv.down && sv'.subs == sv.subs
      && sv'.dirty == w.dirty && sv'.minClock == sv.minClock + if sv'.pushDue then 1 else 0
  {
    TickServerFields(cfg, S, AfterOpLog(cfg, sv, s, c, b, sh), c, b);
  }

  lemma ApplyKeeps(cfg: Config, S: System, S': System, s: nat, c: nat, b: nat)
    requires Inv(cfg, S) && Apply(cfg, S, S', s, c, b)
    ensures Inv(cfg, S')
  {
    var sv := S.servers[s];
    HandledOk(cfg, S, s, sv, c, b);
    ServerMoveInv(cfg, S, S', s, Handled(cfg, S, sv, s, c, b, Log(S, c, b)[AppliedOf(sv, c, b)]));
  }

  lemma HandledOk(cfg: Config, S: System, s: nat, sv: Server, c: nat, b: nat)
    requires ServerOk(cfg, S, s, sv) && c in S.clients && b < cfg.numBgs && ClientInv(cfg, c, S.clients[c])
    requires AppliedOf(sv, c, b) < |Log(S, c, b)| && !sv.pushDue
    ensures ServerOk(cfg, S, s, Handled(cfg, S, sv, s, c, b, Log(S, c, b)[AppliedOf(sv, c, b)]))
  {
    var sh := Log(S, c, b)[AppliedOf(sv, c, b)];
    var sv' := Handled(cfg, S, sv, s, c, b, sh);
    ApplyClocks(cfg, S, s, sv, c, b);
    AfterOpLogRows(cfg, S, s, sv, c, b);
    HandledFields(cfg, S, sv, s, c, b, sh);
    RowsOkFields(cfg, S, s, AfterOpLog(cfg, sv, s, c, b, sh), sv');
    SameDown(cfg, S, s, sv, sv');
  }

  lemma SameDown(cfg: Config, S: System, s: nat, sv: Server, sv': Server)
    requires ServerOk(cfg, S, s, sv) && ClocksOk(cfg, S, sv') && RowsOk(cfg, S, s, sv') && sv'.down == sv.down
    ensures ServerOk(cfg, S, s, sv')
  {
    forall c, b | c in S.clients && 0 <= b < cfg.numBgs ensures MsgsOk(cfg, S, s, b, Down(sv', c, b)) {
      assert Down(sv', c, b) == Down(sv, c, b);
    }
  }

  /** What a server sends is its exact copy, with a clock every client has completed. */
  lemma RowMsgOk(cfg: Config, S: System, s: nat, sv: Server, k: Key)
    requires ServerOf(cfg, k) == s && ClocksOk(cfg, S, sv) && RowsOk(cfg, S, s, sv)
    ensures MsgOk(cfg, S, s, Part(cfg, k), RowMsgFor(cfg, S, sv, k))
  {
    forall c | c in S.clients ensures ClockOk(S, sv, c, Part(cfg, k)) {}
  }

  lemma ReplyMsgs(cfg: Config, S: System, s: nat, sv: Server, sv': Server, c: nat, k: Key)
    requires ServerOk(cfg, S, s, sv) && ServerOf(cfg, k) == s
    requires sv'.down == sv.down[Ch(c, Part(cfg, k)) := Down(sv, c, Part(cfg, k)) + [RowMsgFor(cfg, S, sv, k)]]
    requires c in S.clients
    ensures forall c', b' | c' in S.clients && 0 <= b' < cfg.numBgs :: MsgsOk(cfg, S, s, b', Down(sv', c', b'))
  {
    RowMsgOk(cfg, S, s, sv, k);
    forall c', b' | c' in S.clients && 0 <= b' < cfg.numBgs ensures MsgsOk(cfg, S, s, b', Down(sv', c', b')) {
      assert MsgsOk(cfg, S, s, b', Down(sv, c', b'));
    }
  }

  lemma ReplyKeeps(cfg: Config, S: System, S': System, s: nat, c: nat, k: Key)
    requires Inv(cfg, S) && Reply(cfg, S, S', s, c, k)
    ensures Inv(cfg, S')
  {
    var sv, sv' := S.servers[s], S'.servers[s];
    SameCore(cfg, S, s, sv, sv');
    ReplyMsgs(cfg, S, s, sv, sv', c, k);
    ServerMoveInv(cfg, S, S', s, sv');
  }

  /** Clocks and rows depend on nothing but the fields named here. */
  lemma SameCore(cfg: Config, S: System, s: nat, sv: Server, sv': Server)
    requires ClocksOk(cfg, S, sv) && RowsOk(cfg, S, s, sv)
    requires sv'.applied == sv.applied && sv'.rows == sv.rows && sv'.bgClock == sv.bgClock
    requires sv'.clientClock == sv.clientClock && sv'.minClock == sv.minClock
    ensures ClocksOk(cfg, S, sv') && RowsOk(cfg, S, s, sv')
  {
    RowsOkFields(cfg, S, s, sv, sv');
    forall c, b | c in S.clients && 0 <= b < cfg.numBgs ensures ClockOk(S, sv', c, b) {
      assert ClockOk(S, sv, c, b);
    }
  }

  lemma PushMsgs(cfg: Config, S: System, s: nat, sv: Server, c: nat, b: nat, down': map<Ch, seq<Msg>>)
    requires ClocksOk(cfg, S, sv) && RowsOk(cfg, S, s, sv)
    requires MsgsOk(cfg, S, s, b, Down(sv, c, b)) && Pushed(cfg, S, sv, s, c, b, down')
    ensures MsgsOk(cfg, S, s, b, down'[Ch(c, b)])
  {
    var ks: seq<Key> :|
      && (forall k :: k in ks <==> Due(cfg, sv, s, c, b, k))
      && down'[Ch(c, b)] == Down(sv, c, b) + RowMsgs(cfg, S, sv, ks) + [ClockMsgFor(sv, c, b)];
    forall m | m in down'[Ch(c, b)] ensures MsgOk(cfg, S, s, b, m) {
      if m in RowMsgs(cfg, S, sv, ks) {
        var i :| 0 <= i < |ks| && m == RowMsgFor(cfg, S, sv, ks[i]);
        assert Due(cfg, sv, s, c, b, ks[i]);
        RowMsgOk(cfg, S, s, sv, ks[i]);
      }
    }
  }

  lemma PushKeeps(cfg: Config, S: System, S': System, s: nat, down': map<Ch, seq<Msg>>)
    requires Inv(cfg, S) && PushAll(cfg, S, S', s, down')
    ensures Inv(cfg, S')
  {
    var sv, sv' := S.servers[s], S'.servers[s];
    SameCore(cfg, S, s, sv, sv');
    forall c, b | c in S.clients && 0 <= b < cfg.numBgs ensures MsgsOk(cfg, S, s, b, Down(sv', c, b)) {
      assert MsgsOk(cfg, S, s, b, Down(sv, c, b));
      if cfg.mode == Push {
        PushMsgs(cfg, S, s, sv, c, b, down');
      }
    }
    ServerMoveInv(cfg, S, S', s, sv');
  }

  // ------------------------------------------------ receiving

  /** A row message rebuilt by its receiver agrees with the logs. */
  lemma BuiltCopyOk(cfg: Config, S: System, s: nat, c: nat, C: Client, C': Client, m: Msg)
    requires SysShape(cfg, S) && c in S.clients && C == S.clients[c] && ClientInv(cfg, c, C) && m.RowMsg?
    requires MsgOk(cfg, S, s, Part(cfg, m.key), m)
    requires BuildRow(cfg, c, C, C', m.key, m.clock, m.content, m.cut)
    ensures ClientInv(cfg, c, C')
    ensures CopyOk(cfg, S, c, m.key, BgOf(cfg, C', m.key).building.value.row)
  {
    var k, log := m.key, BgOf(cfg, C, m.key).log;
    assert Log(S, c, Part(cfg, k)) == log;
    forall u: Update | u.client == c ensures m.content[u] == LogCount(log, m.cut[c], k, u) {
      assert m.content[u] == Held(cfg, S, k, m.cut, u);
    }
    BuildKeeps(cfg, c, C, C', k, m.clock, m.content, m.cut);
    var row := BgOf(cfg, C', k).building.value.row;
    forall u: Update | u.client != c ensures row.content[u] == Held(cfg, S, k, m.cut, u) {
      LocalRowsAreOwn(cfg, c, C, k, m.cut[c], u);
    }
  }

  /** Nothing another client issued is in a client's own logs or oplog. */
  lemma LocalRowsAreOwn(cfg: Config, c: nat, C: Client, k: Key, n: nat, u: Update)
    requires ClientInv(cfg, c, C) && u.client != c && n <= |BgOf(cfg, C, k).log|
    ensures At(C.oplog, k)[u] == 0
    ensures var log := BgOf(cfg, C, k).log; Replay(log, n, |log|, k)[u] == 0
  {
    var log := BgOf(cfg, C, k).log;
    assert Buffered(C, k, u) + Flushed(cfg, C, k, u) == 0;
    ReplayCounts(log, n, |log|, k, u);
  }

  lemma BuiltCopies(cfg: Config, S: System, S': System, s: nat, c: nat, C: Client, C': Client, m: Msg)
    requires SysShape(cfg, S) && c in S.clients && C == S.clients[c] && ClientInv(cfg, c, C) && m.RowMsg?
    requires MsgOk(cfg, S, s, Part(cfg, m.key), m) && ClientCopiesOk(cfg, S, c, C)
    requires BuildRow(cfg, c, C, C', m.key, m.clock, m.content, m.cut)
    requires Grow(S, S')
    ensures ClientInv(cfg, c, C') && ClientCopiesOk(cfg, S', c, C') && LogsGrow(C, C')
  {
    BuiltCopyOk(cfg, S, s, c, C, C', m);
    CopiesWithBuilt(cfg, S, S', c, C, C', m);
  }

  lemma CopiesWithBuilt(cfg: Config, S: System, S': System, c: nat, C: Client, C': Client, m: Msg)
    requires Shape(cfg, C) && Shape(cfg, C') && m.RowMsg? && ClientCopiesOk(cfg, S, c, C) && Grow(S, S')
    requires BuildRow(cfg, c, C, C', m.key, m.clock, m.content, m.cut)
    requires CopyOk(cfg, S, c, m.key, BgOf(cfg, C', m.key).building.value.row)
    ensures ClientCopiesOk(cfg, S', c, C')
  {
    forall k, row | HasCopy(cfg, C', k, row) ensures CopyOk(cfg, S', c, k, row) {
      assert HasCopy(cfg, C, k, row) || (k == m.key && row == BgOf(cfg, C', k).building.value.row);
      CopyOkStable(cfg, S, S', c, k, row);
    }
  }

  lemma SeenCopies(cfg: Config, S: System, S': System, c: nat, C: Client, C': Client, b: nat, s: nat, clock: nat)
    requires ClientInv(cfg, c, C) && ClientCopiesOk(cfg, S, c, C) && SeeClock(cfg, C, C', b, s, clock) && Grow(S, S')
    ensures ClientInv(cfg, c, C') && ClientCopiesOk(cfg, S', c, C') && LogsGrow(C, C')
  {
    SeeClockKeeps(cfg, c, C, C', b, s, clock);
    forall k, row | HasCopy(cfg, C', k, row) ensures CopyOk(cfg, S', c, k, row) {
      assert HasCopy(cfg, C, k, row);
      CopyOkStable(cfg, S, S', c, k, row);
    }
  }

  /** Taking a message off a channel leaves a good system. */
  lemma PopKeeps(cfg: Config, S: System, M: System, s: nat, c: nat, b: nat)
    requires Inv(cfg, S) && s < |S.servers| && c in S.clients && b < cfg.numBgs && Down(S.servers[s], c, b) != []
    requires var sv := S.servers[s];
      M == S.(servers := S.servers[s := sv.(down := sv.down[Ch(c, b) := Down(sv, c, b)[1..]])])
    ensures Inv(cfg, M)
  {
    var sv, sv' := S.servers[s], M.servers[s];
    SameCore(cfg, S, s, sv, sv');
    forall c', b' | c' in S.clients && 0 <= b' < cfg.numBgs ensures MsgsOk(cfg, S, s, b', Down(sv', c', b')) {
      assert MsgsOk(cfg, S, s, b', Down(sv, c', b'));
    }
    ServerMoveInv(cfg, S, M, s, sv');
  }

  /** What the receiving client becomes fits the rest of the system. */
  lemma ReceivedOk(cfg: Config, S: System, S': System, s: nat, c: nat, b: nat, C': Client)
    requires SysShape(cfg, S) && Receive(cfg, S, S', s, c, b, C') && ServerOk(cfg, S, s, S.servers[s])
    requires ClientInv(cfg, c, S.clients[c]) && ClientCopiesOk(cfg, S, c, S.clients[c])
    ensures ClientInv(cfg, c, C') && ClientCopiesOk(cfg, S', c, C') && LogsGrow(S.clients[c], C')
  {
    var C, m := S.clients[c], Down(S.servers[s], c, b)[0];
    assert MsgsOk(cfg, S, s, b, Down(S.servers[s], c, b));
    assert MsgOk(cfg, S, s, b, m);
    assert LogsGrow(C, C');
    GrowByClient(S, S', c, C');
    match m
    case RowMsg(k, clock, content, cut) => BuiltCopies(cfg, S, S', s, c, C, C', m);
    case ClockMsg(clock, _) => SeenCopies(cfg, S, S', c, C, C', b, s, clock);
  }

  lemma ReceiveKeeps(cfg: Config, S: System, S': System, s: nat, c: nat, b: nat, C': Client)
    requires Inv(cfg, S) && Receive(cfg, S, S', s, c, b, C')
    ensures Inv(cfg, S')
  {
    var sv := S.servers[s];
    var M := S.(servers := S.servers[s := sv.(down := sv.down[Ch(c, b) := Down(sv, c, b)[1..]])]);
    PopKeeps(cfg, S, M, s, c, b);
    ReceivedOk(cfg, S, S', s, c, b, C');
    ClientMoveInv(cfg, M, S', c, C');
  }

  // ------------------------------------------------ runs

  lemma InitClientInv(cfg: Config, c: nat, C: Client)
    requires InitClient(cfg, C)
    ensures ClientInv(cfg, c, C)
  {
  }

  lemma InitInv(cfg: Config, S: System)
    requires Init(cfg, S)
    ensures Inv(cfg, S)
  {
    forall c | c in S.clients ensures ClientInv(cfg, c, S.clients[c]) && ClientCopiesOk(cfg, S, c, S.clients[c]) {
      InitClientInv(cfg, c, S.clients[c]);
    }
    forall s | 0 <= s < |S.servers| ensures ServerOk(cfg, S, s, S.servers[s]) {
      var sv := S.servers[s];
      forall k, u | ServerOf(cfg, k) == s ensures Held(cfg, S, k, Cut(S, sv, Part(cfg, k)), u) == 0 {}
    }
  }

  lemma NextKeeps(cfg: Config, S: System, S': System)
    requires Inv(cfg, S) && Next(cfg, S, S')
    ensures Inv(cfg, S')
  {
    if c, C', step :| ClientMoves(cfg, S, S', c, C', step) {
      ClientMovesKeeps(cfg, S, S', c, C', step);
    } else if s, c, b :| Apply(cfg, S, S', s, c, b) {
      ApplyKeeps(cfg, S, S', s, c, b);
    } else if s, c, k :| Reply(cfg, S, S', s, c, k) {
      ReplyKeeps(cfg, S, S', s, c, k);
    } else if s, down' :| PushAll(cfg, S, S', s, down') {
      PushKeeps(cfg, S, S', s, down');
    } else {
      var s, c, b, C' :| Receive(cfg, S, S', s, c, b, C');
      ReceiveKeeps(cfg, S, S', s, c, b, C');
    }
  }

  /** The invariant holds in every state of every run. */
  lemma {:induction false} RunInv(cfg: Config, run: seq<System>, i: nat)
    requires IsRun(cfg, run) && i < |run|
    ensures Inv(cfg, run[i])
  {
    if i == 0 {
      InitInv(cfg, run[0]);
    } else {
      RunInv(cfg, run, i - 1);
      assert Next(cfg, run[i - 1], run[i - 1 + 1]);
      NextKeeps(cfg, run[i - 1], run[i]);
    }
  }
}
