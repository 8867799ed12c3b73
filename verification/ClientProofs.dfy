/** Every step of a client process keeps its invariant. */
module ClientProofs {
  import opened PsTypes
  import opened ClientNode

  /** What `Deliver` does to the flushed count of any update. */
  lemma DeliverFlushed(cfg: Config, C: Client, k: Key, r: Row, k': Key, u: Update)
    requires Shape(cfg, C)
    ensures Shape(cfg, Deliver(cfg, C, k, r))
    ensures Flushed(cfg, Deliver(cfg, C, k, r), k', u) == Flushed(cfg, C, k', u) + if k' == k then r[u] else 0
  {
  }

  /** Adding `r` to a copy's content, or to what it missed, follows a delivery of `r`. */
  lemma DeliverCopy(cfg: Config, c: nat, C: Client, k: Key, r: Row, row: Cached, row': Cached)
    requires Shape(cfg, C) && OwnOnce(cfg, c, C, k, row)
    requires forall u | r[u] > 0 :: u.client == c && u.key == k && Flushed(cfg, C, k, u) == 0
    requires row' == row.(content := row.content + r) || row' == row.(missed := row.missed + r)
    ensures Shape(cfg, Deliver(cfg, C, k, r)) && OwnOnce(cfg, c, Deliver(cfg, C, k, r), k, row')
  {
    var D := Deliver(cfg, C, k, r);
    var log := BgOf(cfg, C, k).log;
    forall u: Update | u.client == c
      ensures row'.content[u] + row'.missed[u] == Flushed(cfg, D, k, u)
    {
      DeliverFlushed(cfg, C, k, r, k, u);
    }
    forall u | row'.missed[u] > 0
      ensures u.client == c && u.key == k && LogCount(log, row.cut[c], k, u) == 0
    {
      LogCountMonotone(log, row.cut[c], |log|, k, u);
    }
  }

  lemma DeliverOther(cfg: Config, c: nat, C: Client, k: Key, r: Row, k': Key, row: Cached)
    requires Shape(cfg, C) && k' != k && OwnOnce(cfg, c, C, k', row)
    ensures Shape(cfg, Deliver(cfg, C, k, r)) && OwnOnce(cfg, c, Deliver(cfg, C, k, r), k', row)
  {
    forall u: Update | u.client == c
      ensures row.content[u] + row.missed[u] == Flushed(cfg, Deliver(cfg, C, k, r), k', u)
    {
      DeliverFlushed(cfg, C, k, r, k', u);
    }
  }

  /** Delivering `r`, no part of which is flushed yet, keeps every copy exact. */
  lemma DeliverKeepsCopies(cfg: Config, c: nat, C: Client, k: Key, r: Row)
    requires Shape(cfg, C) && CopiesOk(cfg, c, C)
    requires !Locked(cfg, C, k)
    requires forall u | r[u] > 0 :: u.client == c && u.key == k && Flushed(cfg, C, k, u) == 0
    ensures Shape(cfg, Deliver(cfg, C, k, r)) && CopiesOk(cfg, c, Deliver(cfg, C, k, r))
  {
    var D := Deliver(cfg, C, k, r);
    forall k' | k' in D.cache
      ensures OwnOnce(cfg, c, D, k', D.cache[k'])
    {
      if k' == k {
        DeliverCopy(cfg, c, C, k, r, C.cache[k], D.cache[k]);
      } else {
        DeliverOther(cfg, c, C, k, r, k', C.cache[k']);
      }
    }
    forall b | 0 <= b < |D.bgs| && D.bgs[b].building.Some?
      ensures var bd := D.bgs[b].building.value;
        Part(cfg, bd.key) == b && OwnOnce(cfg, c, D, bd.key, bd.row) && (bd.locked ==> bd.row.missed == multiset{})
    {
      DeliverKeepsBuilding(cfg, c, C, k, r, b);
    }
  }

  lemma DeliverKeepsBuilding(cfg: Config, c: nat, C: Client, k: Key, r: Row, b: nat)
    requires Shape(cfg, C) && CopiesOk(cfg, c, C)
    requires !Locked(cfg, C, k)
    requires forall u | r[u] > 0 :: u.client == c && u.key == k && Flushed(cfg, C, k, u) == 0
    requires b < |C.bgs| && Deliver(cfg, C, k, r).bgs[b].building.Some?
    ensures var D := Deliver(cfg, C, k, r);
      var bd := D.bgs[b].building.value;
      Shape(cfg, D) && Part(cfg, bd.key) == b && OwnOnce(cfg, c, D, bd.key, bd.row) && (bd.locked ==> bd.row.missed == multiset{})
  {
    var bd := C.bgs[b].building.value;
    if bd.key == k {
      DeliverCopy(cfg, c, C, k, r, bd.row, Deliver(cfg, C, k, r).bgs[b].building.value.row);
    } else {
      DeliverOther(cfg, c, C, k, r, bd.key, bd.row);
    }
  }

  /** A copy stays exact while the flushed counts stand and the log only grows. */
  lemma CopyStable(cfg: Config, c: nat, C: Client, C': Client, k: Key, row: Cached)
    requires Shape(cfg, C) && Shape(cfg, C') && OwnOnce(cfg, c, C, k, row)
    requires BgOf(cfg, C, k).log <= BgOf(cfg, C', k).log
    requires forall u :: Flushed(cfg, C', k, u) == Flushed(cfg, C, k, u)
    ensures OwnOnce(cfg, c, C', k, row)
  {
    forall u | row.missed[u] > 0
      ensures LogCount(BgOf(cfg, C', k).log, row.cut[c], k, u) == 0
    {
      LogCountStable(BgOf(cfg, C, k).log, BgOf(cfg, C', k).log, row.cut[c], k, u);
    }
  }

  /** Steps that neither flush, insert nor rebuild a row leave all copies exact. */
  lemma CopiesStable(cfg: Config, c: nat, C: Client, C': Client)
    requires Shape(cfg, C) && Shape(cfg, C') && CopiesOk(cfg, c, C)
    requires forall k | k in C'.cache :: k in C.cache && C'.cache[k] == C.cache[k]
    requires forall b | 0 <= b < |C.bgs| :: C.bgs[b].log <= C'.bgs[b].log && C'.bgs[b].building == C.bgs[b].building
    requires forall k, u :: Flushed(cfg, C', k, u) == Flushed(cfg, C, k, u)
    ensures CopiesOk(cfg, c, C')
  {
    forall k | k in C'.cache
      ensures OwnOnce(cfg, c, C', k, C'.cache[k])
    {
      CopyStable(cfg, c, C, C', k, C.cache[k]);
    }
    forall b | 0 <= b < |C'.bgs| && C'.bgs[b].building.Some?
      ensures OwnOnce(cfg, c, C', C'.bgs[b].building.value.key, C'.bgs[b].building.value.row)
    {
      CopyStable(cfg, c, C, C', C.bgs[b].building.value.key, C.bgs[b].building.value.row);
    }
  }

  /** An update that is neither buffered nor flushed anywhere is not issued. */
  lemma NotYetFlushed(cfg: Config, C: Client, k: Key, u: Update)
    requires Shape(cfg, C) && Conserved(cfg, C)
    requires Buffered(C, k, u) > 0 || u !in C.issued
    ensures Flushed(cfg, C, k, u) == 0
  {
    assert Buffered(C, k, u) + Flushed(cfg, C, k, u) <= 1;
  }

  // ------------------------------------------------ application threads

  /** Bg threads are untouched except for what an open rebuild misses. */
  ghost predicate SameBgs(C: Client, C': Client) {
    && |C'.bgs| == |C.bgs| && C'.minClock == C.minClock && C'.sysClock == C.sysClock
    && forall b | 0 <= b < |C.bgs| ::
         && C'.bgs[b].clockMsgs == C.bgs[b].clockMsgs && C'.bgs[b].log == C.bgs[b].log
         && C'.bgs[b].taking == C.bgs[b].taking && C'.bgs[b].draft == C.bgs[b].draft
         && C'.bgs[b].building.Some? == C.bgs[b].building.Some? && C'.bgs[b].seen == C.bgs[b].seen
  }

  /** `u` carries the current clock of thread `t`. */
  ghost predicate Current(c: nat, t: nat, th: Thread, u: Update) {
    u.client == c && u.thread == t && u.clock == th.ticked
  }

  /** New buffered updates carry the current clock; indexed rows stay indexed. */
  ghost predicate ThreadFrame(c: nat, t: nat, th: Thread, th': Thread, index': set<Key>) {
    && th'.ticked == th.ticked
    && (forall k, u | At(th'.oplog, k)[u] > 0 :: At(th.oplog, k)[u] > 0 || Current(c, t, th, u))
    && (forall k | k in th.index :: k in th'.index || k in index')
  }

  /** What every step of application thread `t` except Tick has in common. */
  ghost predicate AppFrame(c: nat, C: Client, C': Client, t: nat) {
    && t in C.threads && t in C'.threads
    && C'.threads == C.threads[t := C'.threads[t]]
    && SameBgs(C, C')
    && ThreadFrame(c, t, C.threads[t], C'.threads[t], C'.index)
    && C.index <= C'.index
    && (forall u | u in C'.issued :: u in C.issued || Current(c, t, C.threads[t], u))
    && (forall k, u | At(C'.oplog, k)[u] > 0 ::
          At(C.oplog, k)[u] > 0 || (Current(c, t, C.threads[t], u) && k in C'.threads[t].index))
  }

  lemma AppThreads(c: nat, C: Client, C': Client, t: nat)
    requires ThreadsOk(c, C) && AppFrame(c, C, C', t)
    ensures ThreadsOk(c, C')
  {
    forall t', k, u | t' in C'.threads && At(C'.threads[t'].oplog, k)[u] > 0
      ensures u.thread == t' && u.clock == C'.threads[t'].ticked
    {
      if t' == t {
        assert At(C.threads[t].oplog, k)[u] > 0 || Current(c, t, C.threads[t], u);
      } else {
        assert At(C.threads[t'].oplog, k)[u] > 0;
      }
    }
    forall u | u in C'.issued
      ensures u.client == c && u.thread in C'.threads && u.clock <= C'.threads[u.thread].ticked
    {
      assert u in C.issued || Current(c, t, C.threads[t], u);
    }
  }

  lemma AppIndexed(cfg: Config, c: nat, C: Client, C': Client, t: nat)
    requires Shape(cfg, C) && Indexed(cfg, C) && AppFrame(c, C, C', t)
    ensures Shape(cfg, C') && Indexed(cfg, C')
  {
    forall k, u | At(C'.oplog, k)[u] > 0
      ensures && u.thread in C'.threads
              && (k in BgOf(cfg, C', k).taking || k in C'.index || k in C'.threads[u.thread].index)
              && (u.clock < C'.threads[u.thread].ticked ==> k in BgOf(cfg, C', k).taking || k in C'.index)
    {
      assert BgOf(cfg, C', k).taking == BgOf(cfg, C, k).taking;
      assert At(C.oplog, k)[u] > 0 || (Current(c, t, C.threads[t], u) && k in C'.threads[t].index);
    }
  }

  lemma AppBgs(cfg: Config, c: nat, C: Client, C': Client, t: nat)
    requires ThreadsOk(c, C) && BgsOk(cfg, C) && AppFrame(c, C, C', t)
    ensures BgsOk(cfg, C')
  {
    forall b | 0 <= b < |C'.bgs|
      ensures BgOk(cfg, C', b)
    {
      assert BgOk(cfg, C, b);
      forall k, u | Part(cfg, k) == b && At(C'.oplog, k)[u] > 0 && u.clock < C.minClock
        ensures At(C.oplog, k)[u] > 0
      {
        assert At(C.oplog, k)[u] > 0 || Current(c, t, C.threads[t], u);
      }
    }
  }

  lemma AppFresh(cfg: Config, c: nat, C: Client, C': Client, t: nat)
    requires Shape(cfg, C) && ThreadsOk(c, C) && BgsOk(cfg, C) && LogFresh(cfg, C) && AppFrame(c, C, C', t)
    ensures Shape(cfg, C') && LogFresh(cfg, C')
  {
    forall u: Update, n: nat |
      u in C'.issued && n <= |BgOf(cfg, C', u.key).log| && u.clock < Clocks(BgOf(cfg, C', u.key).log, n)
      ensures LogCount(BgOf(cfg, C', u.key).log, n, u.key, u) == 1
    {
      var log := BgOf(cfg, C, u.key).log;
      assert BgOf(cfg, C', u.key).log == log;
      assert BgOk(cfg, C, Part(cfg, u.key));
      ClocksMonotone(log, n, |log|);
    }
  }

  lemma AppKeeps(cfg: Config, c: nat, C: Client, C': Client, t: nat)
    requires ClientInv(cfg, c, C) && AppFrame(c, C, C', t)
    requires Shape(cfg, C') && Conserved(cfg, C') && CopiesOk(cfg, c, C') && TablesKnown(cfg, C')
    ensures ClientInv(cfg, c, C')
  {
    AppThreads(c, C, C', t);
    AppIndexed(cfg, c, C, C', t);
    AppBgs(cfg, c, C, C', t);
    AppFresh(cfg, c, C, C', t);
  }

  // ------------------------------------------------------------- Inc

  lemma IncCounts(cfg: Config, c: nat, C: Client, C': Client, t: nat, u: Update, k: Key, v: Update)
    requires Shape(cfg, C) && Inc(cfg, c, C, C', t, u)
    ensures Shape(cfg, C')
    ensures Buffered(C', k, v) == Buffered(C, k, v)
    ensures Flushed(cfg, C', k, v) == Flushed(cfg, C, k, v) + if k == u.key && v == u then 1 else 0
    ensures Flushed(cfg, C', k, v) == Flushed(cfg, Deliver(cfg, C, u.key, multiset{u}), k, v)
  {
    DeliverFlushed(cfg, C, u.key, multiset{u}, k, v);
  }

  lemma IncConserved(cfg: Config, c: nat, C: Client, C': Client, t: nat, u: Update)
    requires Shape(cfg, C) && Conserved(cfg, C) && Inc(cfg, c, C, C', t, u)
    ensures Shape(cfg, C') && Conserved(cfg, C')
  {
    forall k, v
      ensures Buffered(C', k, v) + Flushed(cfg, C', k, v) == if v in C'.issued && v.key == k then 1 else 0
    {
      IncCounts(cfg, c, C, C', t, u, k, v);
      assert Buffered(C, k, v) + Flushed(cfg, C, k, v) == if v in C.issued && v.key == k then 1 else 0;
    }
  }

  lemma IncCopies(cfg: Config, c: nat, C: Client, C': Client, t: nat, u: Update)
    requires Shape(cfg, C) && CopiesOk(cfg, c, C) && Conserved(cfg, C) && Inc(cfg, c, C, C', t, u)
    ensures Shape(cfg, C') && CopiesOk(cfg, c, C')
  {
    var D := Deliver(cfg, C, u.key, multiset{u});
    NotYetFlushed(cfg, C, u.key, u);
    DeliverKeepsCopies(cfg, c, C, u.key, multiset{u});
    forall k, v
      ensures Flushed(cfg, C', k, v) == Flushed(cfg, D, k, v)
    {
      IncCounts(cfg, c, C, C', t, u, k, v);
    }
    CopiesStable(cfg, c, D, C');
  }

  lemma IncFrame(cfg: Config, c: nat, C: Client, C': Client, t: nat, u: Update)
    requires Shape(cfg, C) && Inc(cfg, c, C, C', t, u)
    ensures AppFrame(c, C, C', t)
  {
    assert C'.oplog == C.oplog[u.key := At(C.oplog, u.key) + multiset{u}];
  }

  lemma IncKeeps(cfg: Config, c: nat, C: Client, C': Client, t: nat, u: Update)
    requires ClientInv(cfg, c, C) && Inc(cfg, c, C, C', t, u)
    ensures ClientInv(cfg, c, C')
  {
    IncConserved(cfg, c, C, C', t, u);
    IncCopies(cfg, c, C, C', t, u);
    IncFrame(cfg, c, C, C', t, u);
    AppKeeps(cfg, c, C, C', t);
  }

  // ------------------------------------------------------------- FlushRow

  lemma FlushCounts(cfg: Config, C: Client, C': Client, t: nat, k: Key, k': Key, u: Update)
    requires Shape(cfg, C) && FlushRow(cfg, C, C', t, k)
    ensures Shape(cfg, C')
    ensures Flushed(cfg, C', k', u) == Flushed(cfg, C, k', u) + if k' == k then C.threads[t].oplog[k][u] else 0
    ensures Flushed(cfg, C', k', u) == Flushed(cfg, Deliver(cfg, C, k, C.threads[t].oplog[k]), k', u)
    ensures Buffered(C', k', u) == if k' == k && u.thread == t then 0 else Buffered(C, k', u)
  {
    DeliverFlushed(cfg, C, k, C.threads[t].oplog[k], k', u);
  }

  lemma FlushConserved(cfg: Config, c: nat, C: Client, C': Client, t: nat, k: Key)
    requires Shape(cfg, C) && ThreadsOk(c, C) && Conserved(cfg, C) && FlushRow(cfg, C, C', t, k)
    ensures Shape(cfg, C') && Conserved(cfg, C')
  {
    forall k', u
      ensures Buffered(C', k', u) + Flushed(cfg, C', k', u) == if u in C'.issued && u.key == k' then 1 else 0
    {
      FlushCounts(cfg, C, C', t, k, k', u);
      assert At(C.threads[t].oplog, k)[u] > 0 ==> u.thread == t;
      assert Buffered(C, k', u) + Flushed(cfg, C, k', u) == if u in C.issued && u.key == k' then 1 else 0;
    }
  }

  lemma FlushCopies(cfg: Config, c: nat, C: Client, C': Client, t: nat, k: Key)
    requires Shape(cfg, C) && ThreadsOk(c, C) && Conserved(cfg, C) && CopiesOk(cfg, c, C)
    requires FlushRow(cfg, C, C', t, k)
    ensures Shape(cfg, C') && CopiesOk(cfg, c, C')
  {
    var r := C.threads[t].oplog[k];
    forall u | r[u] > 0
      ensures u.client == c && u.key == k && Flushed(cfg, C, k, u) == 0
    {
      assert At(C.threads[t].oplog, k)[u] > 0;
      NotYetFlushed(cfg, C, k, u);
    }
    DeliverKeepsCopies(cfg, c, C, k, r);
    forall k', u
      ensures Flushed(cfg, C', k', u) == Flushed(cfg, Deliver(cfg, C, k, r), k', u)
    {
      FlushCounts(cfg, C, C', t, k, k', u);
    }
    CopiesStable(cfg, c, Deliver(cfg, C, k, r), C');
  }

  lemma BufferedIsCurrent(cfg: Config, c: nat, C: Client, t: nat, k: Key, u: Update)
    requires Shape(cfg, C) && ThreadsOk(c, C) && Conserved(cfg, C)
    requires t in C.threads && At(C.threads[t].oplog, k)[u] > 0
    ensures Current(c, t, C.threads[t], u) && u.key == k
  {
    assert Buffered(C, k, u) + Flushed(cfg, C, k, u) > 0;
  }

  lemma FlushFrame(cfg: Config, c: nat, C: Client, C': Client, t: nat, k: Key)
    requires Shape(cfg, C) && FlushRow(cfg, C, C', t, k)
    requires forall u | C.threads[t].oplog[k][u] > 0 :: Current(c, t, C.threads[t], u)
    ensures AppFrame(c, C, C', t)
  {
    var r := C.threads[t].oplog[k];
    assert C'.oplog == C.oplog[k := At(C.oplog, k) + r];
    assert forall u | r[u] > 0 :: r != multiset{};
  }

  lemma FlushKeeps(cfg: Config, c: nat, C: Client, C': Client, t: nat, k: Key)
    requires ClientInv(cfg, c, C) && FlushRow(cfg, C, C', t, k)
    ensures ClientInv(cfg, c, C')
  {
    FlushConserved(cfg, c, C, C', t, k);
    FlushCopies(cfg, c, C, C', t, k);
    forall u | C.threads[t].oplog[k][u] > 0
      ensures Current(c, t, C.threads[t], u)
    {
      BufferedIsCurrent(cfg, c, C, t, k, u);
    }
    FlushFrame(cfg, c, C, C', t, k);
    AppKeeps(cfg, c, C, C', t);
  }

  // ------------------------------------- steps that leave the flushed rows alone

  /** Issued updates and flushed rows stand still; only buffers may change. */
  lemma QuietKeeps(cfg: Config, c: nat, C: Client, C': Client, t: nat)
    requires ClientInv(cfg, c, C) && AppFrame(c, C, C', t) && TablesKnown(cfg, C')
    requires C'.oplog == C.oplog && C'.bgs == C.bgs
    requires forall k | k in C'.cache :: k in C.cache && C'.cache[k] == C.cache[k]
    requires forall k, u :: Buffered(C', k, u) ==
               Buffered(C, k, u) + if u in C'.issued && u !in C.issued && u.key == k then 1 else 0
    requires C.issued <= C'.issued
    ensures ClientInv(cfg, c, C')
  {
    forall k, u
      ensures Flushed(cfg, C', k, u) == Flushed(cfg, C, k, u)
      ensures Buffered(C', k, u) + Flushed(cfg, C', k, u) == if u in C'.issued && u.key == k then 1 else 0
    {
      assert Buffered(C, k, u) + Flushed(cfg, C, k, u) == if u in C.issued && u.key == k then 1 else 0;
    }
    CopiesStable(cfg, c, C, C');
    AppKeeps(cfg, c, C, C', t);
  }

  lemma ThreadIncFrame(cfg: Config, c: nat, C: Client, C': Client, t: nat, u: Update)
    requires Shape(cfg, C) && ThreadInc(cfg, c, C, C', t, u)
    ensures AppFrame(c, C, C', t)
    ensures forall k, v :: Buffered(C', k, v) == Buffered(C, k, v) + if v == u && u.key == k then 1 else 0
  {
    assert C'.threads[t].oplog == C.threads[t].oplog[u.key := At(C.threads[t].oplog, u.key) + multiset{u}];
  }

  lemma ThreadIncKeeps(cfg: Config, c: nat, C: Client, C': Client, t: nat, u: Update)
    requires ClientInv(cfg, c, C) && ThreadInc(cfg, c, C, C', t, u)
    ensures ClientInv(cfg, c, C')
  {
    ThreadIncFrame(cfg, c, C, C', t, u);
    QuietKeeps(cfg, c, C, C', t);
  }

  /** Changes to a thread's flags, index or row copies. */
  ghost predicate OtherApp(cfg: Config, C: Client, C': Client, t: nat) {
    || ClockBegin(cfg, C, C', t) || (exists table :: FlushEnd(cfg, C, C', t, table))
    || (exists table, b :: FlushIndex(cfg, C, C', t, table, b)) || (exists k :: ThreadGet(cfg, C, C', t, k))
  }

  lemma OtherAppFrame(cfg: Config, c: nat, C: Client, C': Client, t: nat)
    requires OtherApp(cfg, C, C', t)
    ensures AppFrame(c, C, C', t)
    ensures C'.issued == C.issued && C'.oplog == C.oplog && C'.bgs == C.bgs
    ensures forall k | k in C'.cache :: k in C.cache && C'.cache[k] == C.cache[k]
    ensures forall k, u :: Buffered(C', k, u) == Buffered(C, k, u)
  {
    if table: nat, b: nat :| FlushIndex(cfg, C, C', t, table, b) {
      assert C'.threads[t].oplog == C.threads[t].oplog;
    } else if table: nat :| FlushEnd(cfg, C, C', t, table) {
      assert C'.threads[t].oplog == C.threads[t].oplog;
    }
  }

  lemma OtherAppKeeps(cfg: Config, c: nat, C: Client, C': Client, t: nat)
    requires ClientInv(cfg, c, C) && OtherApp(cfg, C, C', t)
    ensures ClientInv(cfg, c, C')
  {
    OtherAppFrame(cfg, c, C, C', t);
    QuietKeeps(cfg, c, C, C', t);
  }

  // ------------------------------------------------ bg threads and the cache

  /** The application side stands still. */
  ghost predicate SameApps(C: Client, C': Client) {
    C'.threads == C.threads && C'.issued == C.issued && C'.minClock == C.minClock
  }

  lemma SameConserved(cfg: Config, C: Client, C': Client)
    requires Shape(cfg, C) && Shape(cfg, C') && Conserved(cfg, C) && SameApps(C, C')
    requires forall k, u :: Flushed(cfg, C', k, u) == Flushed(cfg, C, k, u)
    ensures Conserved(cfg, C')
  {
    forall k, u
      ensures Buffered(C', k, u) + Flushed(cfg, C', k, u) == if u in C'.issued && u.key == k then 1 else 0
    {
      assert Buffered(C, k, u) + Flushed(cfg, C, k, u) == if u in C.issued && u.key == k then 1 else 0;
    }
  }

  lemma SameIndexed(cfg: Config, C: Client, C': Client)
    requires Shape(cfg, C) && Shape(cfg, C') && Indexed(cfg, C) && SameApps(C, C')
    requires forall k | k in C'.oplog :: k in C.oplog && C'.oplog[k] == C.oplog[k]
    requires forall k | k in C'.oplog && (k in BgOf(cfg, C, k).taking || k in C.index) ::
               k in BgOf(cfg, C', k).taking || k in C'.index
    ensures Indexed(cfg, C')
  {
    forall k, u | At(C'.oplog, k)[u] > 0
      ensures && u.thread in C'.threads
              && (k in BgOf(cfg, C', k).taking || k in C'.index || k in C'.threads[u.thread].index)
              && (u.clock < C'.threads[u.thread].ticked ==> k in BgOf(cfg, C', k).taking || k in C'.index)
    {
      assert k in C'.oplog && At(C.oplog, k)[u] > 0;
    }
  }

  /** Only bg thread `b` changed, apart from the oplog losing entries of its partition. */
  lemma SameBgsBut(cfg: Config, C: Client, C': Client, b: nat)
    requires BgsOk(cfg, C) && SameApps(C, C') && b < |C.bgs| && |C'.bgs| == |C.bgs|
    requires forall i | 0 <= i < |C.bgs| && i != b :: C'.bgs[i] == C.bgs[i]
    requires forall k | k in C'.oplog :: k in C.oplog && C'.oplog[k] == C.oplog[k]
    requires forall k | k in C.index && Part(cfg, k) != b :: k in C'.index
    requires BgOk(cfg, C', b)
    ensures BgsOk(cfg, C')
  {
    forall i | 0 <= i < |C'.bgs|
      ensures BgOk(cfg, C', i)
    {
      assert BgOk(cfg, C, i);
      forall k, u | At(C'.oplog, k)[u] > 0 ensures At(C.oplog, k)[u] > 0 {}
    }
  }

  lemma SameFresh(cfg: Config, C: Client, C': Client)
    requires Shape(cfg, C) && Shape(cfg, C') && LogFresh(cfg, C) && C'.issued == C.issued
    requires forall b | 0 <= b < |C.bgs| :: C'.bgs[b].log == C.bgs[b].log
    ensures LogFresh(cfg, C')
  {
    forall u: Update ensures BgOf(cfg, C', u.key).log == BgOf(cfg, C, u.key).log {}
  }

  /** Steps of bg thread `b` that keep its log and all flushed counts. */
  lemma BgKeeps(cfg: Config, c: nat, C: Client, C': Client, b: nat)
    requires ClientInv(cfg, c, C) && Shape(cfg, C') && SameApps(C, C') && b < |C.bgs|
    requires forall i | 0 <= i < |C.bgs| && i != b :: C'.bgs[i] == C.bgs[i]
    requires C'.bgs[b].log == C.bgs[b].log
    requires forall k | k in C'.oplog :: k in C.oplog && C'.oplog[k] == C.oplog[k]
    requires forall k | k in C'.oplog && (k in BgOf(cfg, C, k).taking || k in C.index) ::
               k in BgOf(cfg, C', k).taking || k in C'.index
    requires forall k | k in C.index && Part(cfg, k) != b :: k in C'.index
    requires forall k, u :: Flushed(cfg, C', k, u) == Flushed(cfg, C, k, u)
    requires BgOk(cfg, C', b) && CopiesOk(cfg, c, C')
    ensures ClientInv(cfg, c, C')
  {
    SameConserved(cfg, C, C');
    SameIndexed(cfg, C, C');
    SameBgsBut(cfg, C, C', b);
    SameFresh(cfg, C, C');
  }

  lemma EvictKeeps(cfg: Config, c: nat, C: Client, C': Client, k: Key)
    requires ClientInv(cfg, c, C) && Evict(cfg, C, C', k)
    ensures ClientInv(cfg, c, C')
  {
    CopiesStable(cfg, c, C, C');
    assert BgOk(cfg, C, Part(cfg, k)) && BgOk(cfg, C', Part(cfg, k));
    BgKeeps(cfg, c, C, C', Part(cfg, k));
  }

  /** A shipment that ends a clock starts with every older update in the shared index. */
  lemma ShipBeginBg(cfg: Config, c: nat, C: Client, C': Client, b: nat, isClock: bool)
    requires Shape(cfg, C) && ThreadsOk(c, C) && Conserved(cfg, C) && TablesKnown(cfg, C) && Indexed(cfg, C)
    requires b < |C.bgs| && BgOk(cfg, C, b) && ShipBegin(cfg, C, C', b, isClock)
    ensures BgOk(cfg, C', b)
  {
    forall k, u | Part(cfg, k) == b && At(C'.oplog, k)[u] > 0 && u.clock < C.minClock
      ensures k in C'.index && k.table in cfg.tables
    {
      assert At(C.oplog, k)[u] > 0;
      assert Buffered(C, k, u) + Flushed(cfg, C, k, u) == if u in C.issued && u.key == k then 1 else 0;
    }
  }

  lemma ShipBeginKeeps(cfg: Config, c: nat, C: Client, C': Client, b: nat, isClock: bool)
    requires ClientInv(cfg, c, C) && ShipBegin(cfg, C, C', b, isClock)
    ensures ClientInv(cfg, c, C')
  {
    assert BgOk(cfg, C, b);
    ShipBeginBg(cfg, c, C, C', b, isClock);
    assert Shape(cfg, C') && SameApps(C, C');
    assert forall k, u :: Flushed(cfg, C', k, u) == Flushed(cfg, C, k, u);
    CopiesStable(cfg, c, C, C');
    BgKeeps(cfg, c, C, C', b);
  }

  lemma ShipTableBg(cfg: Config, C: Client, C': Client, b: nat, table: nat)
    requires Shape(cfg, C) && b < |C.bgs| && BgOk(cfg, C, b) && ShipTable(cfg, C, C', b, table)
    ensures BgOk(cfg, C', b)
    ensures forall k | k in BgOf(cfg, C, k).taking || k in C.index :: k in C'.bgs[Part(cfg, k)].taking || k in C'.index
  {
  }

  lemma ShipTableKeeps(cfg: Config, c: nat, C: Client, C': Client, b: nat, table: nat)
    requires ClientInv(cfg, c, C) && ShipTable(cfg, C, C', b, table)
    ensures ClientInv(cfg, c, C')
  {
    assert BgOk(cfg, C, b);
    ShipTableBg(cfg, C, C', b, table);
    assert Shape(cfg, C') && SameApps(C, C');
    assert forall k, u :: Flushed(cfg, C', k, u) == Flushed(cfg, C, k, u);
    CopiesStable(cfg, c, C, C');
    BgKeeps(cfg, c, C, C', b);
  }

  lemma ShipRowCounts(cfg: Config, C: Client, C': Client, b: nat, k: Key, k': Key, u: Update)
    requires Shape(cfg, C) && b < |C.bgs| && BgOk(cfg, C, b) && ShipRow(cfg, C, C', b, k)
    ensures Shape(cfg, C') && Flushed(cfg, C', k', u) == Flushed(cfg, C, k', u)
  {
    assert Part(cfg, k) == b && k !in C.bgs[b].draft.value.rows;
  }

  lemma ShipRowBg(cfg: Config, C: Client, C': Client, b: nat, k: Key)
    requires Shape(cfg, C) && b < |C.bgs| && BgOk(cfg, C, b) && ShipRow(cfg, C, C', b, k)
    ensures BgOk(cfg, C', b)
  {
    forall k', u | Part(cfg, k') == b && At(C'.oplog, k')[u] > 0
      ensures k' != k && At(C.oplog, k')[u] > 0
    {
    }
  }

  lemma ShipRowFlushed(cfg: Config, c: nat, C: Client, C': Client, b: nat, k: Key)
    requires Shape(cfg, C) && b < |C.bgs| && BgOk(cfg, C, b) && CopiesOk(cfg, c, C) && ShipRow(cfg, C, C', b, k)
    ensures Shape(cfg, C') && CopiesOk(cfg, c, C') && Part(cfg, k) == b
    ensures forall k', u :: Flushed(cfg, C', k', u) == Flushed(cfg, C, k', u)
  {
    forall k', u
      ensures Shape(cfg, C') && Flushed(cfg, C', k', u) == Flushed(cfg, C, k', u)
    {
      ShipRowCounts(cfg, C, C', b, k, k', u);
    }
    CopiesStable(cfg, c, C, C');
  }

  lemma ShipRowKeeps(cfg: Config, c: nat, C: Client, C': Client, b: nat, k: Key)
    requires ClientInv(cfg, c, C) && ShipRow(cfg, C, C', b, k)
    ensures ClientInv(cfg, c, C')
  {
    assert BgOk(cfg, C, b);
    ShipRowBg(cfg, C, C', b, k);
    ShipRowFlushed(cfg, c, C, C', b, k);
    BgKeeps(cfg, c, C, C', b);
  }

  // ------------------------------------------------------------- ShipEnd

  lemma ShipEndCounts(cfg: Config, C: Client, C': Client, b: nat, k: Key, u: Update)
    requires Shape(cfg, C) && ShipEnd(cfg, C, C', b)
    ensures Shape(cfg, C') && Flushed(cfg, C', k, u) == Flushed(cfg, C, k, u)
  {
    if Part(cfg, k) == b {
      LogCountStable(C.bgs[b].log, C'.bgs[b].log, |C.bgs[b].log|, k, u);
    }
  }

  /** The version just sent completes its clock: no older update stayed behind. */
  lemma ShipEndComplete(cfg: Config, c: nat, C: Client, b: nat, u: Update)
    requires Shape(cfg, C) && ThreadsOk(c, C) && Conserved(cfg, C) && b < |C.bgs| && BgOk(cfg, C, b)
    requires C.bgs[b].draft.Some? && C.bgs[b].draft.value.isClock && C.bgs[b].taking == {} && C.bgs[b].draft.value.left == {}
    requires u in C.issued && Part(cfg, u.key) == b && u.clock <= Clocks(C.bgs[b].log, |C.bgs[b].log|)
    ensures DraftCount(C.bgs[b], u.key, u) + LogCount(C.bgs[b].log, |C.bgs[b].log|, u.key, u) == 1
  {
    assert u.clock < C.minClock <= C.threads[u.thread].ticked;
    assert At(C.threads[u.thread].oplog, u.key)[u] == 0;
    assert At(C.oplog, u.key)[u] == 0;
    assert Buffered(C, u.key, u) + Flushed(cfg, C, u.key, u) == 1;
  }

  lemma ShipEndFresh(cfg: Config, c: nat, C: Client, C': Client, b: nat)
    requires Shape(cfg, C) && ThreadsOk(c, C) && Conserved(cfg, C) && LogFresh(cfg, C)
    requires b < |C.bgs| && BgOk(cfg, C, b) && ShipEnd(cfg, C, C', b)
    ensures Shape(cfg, C') && LogFresh(cfg, C')
  {
    forall u: Update, n: nat |
      u in C'.issued && n <= |BgOf(cfg, C', u.key).log| && u.clock < Clocks(BgOf(cfg, C', u.key).log, n)
      ensures LogCount(BgOf(cfg, C', u.key).log, n, u.key, u) == 1
    {
      ShipEndFreshOne(cfg, c, C, C', b, u, n);
    }
  }

  lemma ShipEndFreshOne(cfg: Config, c: nat, C: Client, C': Client, b: nat, u: Update, n: nat)
    requires Shape(cfg, C) && ThreadsOk(c, C) && Conserved(cfg, C) && LogFresh(cfg, C)
    requires b < |C.bgs| && BgOk(cfg, C, b) && ShipEnd(cfg, C, C', b) && Shape(cfg, C')
    requires u in C'.issued && n <= |BgOf(cfg, C', u.key).log| && u.clock < Clocks(BgOf(cfg, C', u.key).log, n)
    ensures LogCount(BgOf(cfg, C', u.key).log, n, u.key, u) == 1
  {
    var log, log' := BgOf(cfg, C, u.key).log, BgOf(cfg, C', u.key).log;
    var m := if n <= |log| then n else |log|;
    LogCountStable(log, log', m, u.key, u);
    ClocksStable(log, log', m);
    if u.clock < Clocks(log, m) {
      ShipEndStale(cfg, c, C, C', b, u, n);
    } else {
      ShipEndComplete(cfg, c, C, b, u);
    }
  }

  lemma ShipEndStale(cfg: Config, c: nat, C: Client, C': Client, b: nat, u: Update, n: nat)
    requires Shape(cfg, C) && Conserved(cfg, C) && LogFresh(cfg, C) && b < |C.bgs| && ShipEnd(cfg, C, C', b) && Shape(cfg, C')
    requires u in C.issued && n <= |BgOf(cfg, C', u.key).log|
    requires var log := BgOf(cfg, C, u.key).log; u.clock < Clocks(log, if n <= |log| then n else |log|)
    ensures LogCount(BgOf(cfg, C', u.key).log, n, u.key, u) == 1
  {
    var log, log' := BgOf(cfg, C, u.key).log, BgOf(cfg, C', u.key).log;
    if n <= |log| {
      LogCountStable(log, log', n, u.key, u);
    } else {
      assert LogCount(log, |log|, u.key, u) == 1;
      ShipEndOnce(cfg, c, C, C', b, u);
    }
  }

  /** What was in the log before is not in the new shipment. */
  lemma ShipEndOnce(cfg: Config, c: nat, C: Client, C': Client, b: nat, u: Update)
    requires Shape(cfg, C) && Conserved(cfg, C) && b < |C.bgs| && ShipEnd(cfg, C, C', b) && Shape(cfg, C')
    requires u in C.issued && |BgOf(cfg, C', u.key).log| > |BgOf(cfg, C, u.key).log|
    requires var log := BgOf(cfg, C, u.key).log; LogCount(log, |log|, u.key, u) == 1
    ensures var log' := BgOf(cfg, C', u.key).log; LogCount(log', |log'|, u.key, u) == 1
  {
    var log, log' := BgOf(cfg, C, u.key).log, BgOf(cfg, C', u.key).log;
    assert Part(cfg, u.key) == b;
    LogCountStable(log, log', |log|, u.key, u);
    assert Buffered(C, u.key, u) + Flushed(cfg, C, u.key, u) == 1;
  }

  lemma ShipEndKeeps(cfg: Config, c: nat, C: Client, C': Client, b: nat)
    requires ClientInv(cfg, c, C) && ShipEnd(cfg, C, C', b)
    ensures ClientInv(cfg, c, C')
  {
    assert BgOk(cfg, C, b);
    ClocksStable(C.bgs[b].log, C'.bgs[b].log, |C.bgs[b].log|);
    assert BgOk(cfg, C', b);
    forall k, u
      ensures Shape(cfg, C') && Flushed(cfg, C', k, u) == Flushed(cfg, C, k, u)
    {
      ShipEndCounts(cfg, C, C', b, k, u);
    }
    SameConserved(cfg, C, C');
    SameIndexed(cfg, C, C');
    SameBgsBut(cfg, C, C', b);
    ShipEndFresh(cfg, c, C, C', b);
    CopiesStable(cfg, c, C, C');
  }

  // ------------------------------------------------------- rebuild and insert

  /** The rebuilt row holds each flushed local update once, wherever it sat, provided the
      server copy holds exactly the local shipments its version says. */
  lemma RebuiltOnce(cfg: Config, c: nat, C: Client, k: Key, clock: nat, content: Row, cut: map<nat, nat>)
    requires Shape(cfg, C) && BgOf(cfg, C, k).draft.None?
    requires c in cut && cut[c] <= |BgOf(cfg, C, k).log|
    requires forall u: Update | u.client == c :: content[u] == LogCount(BgOf(cfg, C, k).log, cut[c], k, u)
    ensures var log := BgOf(cfg, C, k).log;
      OwnOnce(cfg, c, C, k, Cached(clock, content + Replay(log, cut[c], |log|, k) + At(C.oplog, k), multiset{}, cut))
  {
    var log := BgOf(cfg, C, k).log;
    forall u: Update | u.client == c
      ensures (content + Replay(log, cut[c], |log|, k) + At(C.oplog, k))[u] == Flushed(cfg, C, k, u)
    {
      ReplayCounts(log, cut[c], |log|, k, u);
    }
  }

  /** Counts and logs stand still, so every copy of the old state is exact in the new one. */
  lemma CopiesFrom(cfg: Config, c: nat, C: Client, C': Client)
    requires Shape(cfg, C) && Shape(cfg, C')
    requires forall k, u :: Flushed(cfg, C', k, u) == Flushed(cfg, C, k, u)
    requires forall b | 0 <= b < |C.bgs| :: C'.bgs[b].log == C.bgs[b].log
    requires forall k | k in C'.cache :: OwnOnce(cfg, c, C, k, C'.cache[k])
    requires forall b | 0 <= b < |C'.bgs| && C'.bgs[b].building.Some? ::
               var bd := C'.bgs[b].building.value;
               Part(cfg, bd.key) == b && OwnOnce(cfg, c, C, bd.key, bd.row) && (bd.locked ==> bd.row.missed == multiset{})
    ensures CopiesOk(cfg, c, C')
  {
    forall k | k in C'.cache ensures OwnOnce(cfg, c, C', k, C'.cache[k]) {
      CopyStable(cfg, c, C, C', k, C'.cache[k]);
    }
    forall b | 0 <= b < |C'.bgs| && C'.bgs[b].building.Some?
      ensures OwnOnce(cfg, c, C', C'.bgs[b].building.value.key, C'.bgs[b].building.value.row)
    {
      CopyStable(cfg, c, C, C', C'.bgs[b].building.value.key, C'.bgs[b].building.value.row);
    }
  }

  lemma BuildKeeps(cfg: Config, c: nat, C: Client, C': Client, k: Key, clock: nat, content: Row, cut: map<nat, nat>)
    requires ClientInv(cfg, c, C) && BuildRow(cfg, c, C, C', k, clock, content, cut)
    requires forall u: Update | u.client == c :: content[u] == LogCount(BgOf(cfg, C, k).log, cut[c], k, u)
    ensures ClientInv(cfg, c, C')
  {
    var b := Part(cfg, k);
    RebuiltOnce(cfg, c, C, k, clock, content, cut);
    BuildCopies(cfg, c, C, C', k, clock, content, cut);
    assert BgOk(cfg, C, b) && BgOk(cfg, C', b);
    BgKeeps(cfg, c, C, C', b);
  }

  lemma BuildCopies(cfg: Config, c: nat, C: Client, C': Client, k: Key, clock: nat, content: Row, cut: map<nat, nat>)
    requires Shape(cfg, C) && CopiesOk(cfg, c, C) && BuildRow(cfg, c, C, C', k, clock, content, cut)
    requires var log := BgOf(cfg, C, k).log;
      OwnOnce(cfg, c, C, k, Cached(clock, content + Replay(log, cut[c], |log|, k) + At(C.oplog, k), multiset{}, cut))
    ensures Shape(cfg, C') && CopiesOk(cfg, c, C')
    ensures forall k, u :: Flushed(cfg, C', k, u) == Flushed(cfg, C, k, u)
  {
    CopiesFrom(cfg, c, C, C');
  }

  lemma InsertCopies(cfg: Config, c: nat, C: Client, C': Client, b: nat)
    requires Shape(cfg, C) && CopiesOk(cfg, c, C) && InsertRow(cfg, C, C', b)
    ensures Shape(cfg, C') && CopiesOk(cfg, c, C')
    ensures forall k, u :: Flushed(cfg, C', k, u) == Flushed(cfg, C, k, u)
  {
    CopiesFrom(cfg, c, C, C');
  }

  lemma InsertKeeps(cfg: Config, c: nat, C: Client, C': Client, b: nat)
    requires ClientInv(cfg, c, C) && InsertRow(cfg, C, C', b)
    ensures ClientInv(cfg, c, C')
  {
    InsertCopies(cfg, c, C, C', b);
    assert BgOk(cfg, C, b) && BgOk(cfg, C', b);
    BgKeeps(cfg, c, C, C', b);
  }

  lemma SeeClockKeeps(cfg: Config, c: nat, C: Client, C': Client, b: nat, s: nat, clock: nat)
    requires ClientInv(cfg, c, C) && SeeClock(cfg, C, C', b, s, clock)
    ensures ClientInv(cfg, c, C')
  {
    assert BgOk(cfg, C, b) && BgOk(cfg, C', b);
    forall k', u ensures Flushed(cfg, C', k', u) == Flushed(cfg, C, k', u) {}
    CopiesStable(cfg, c, C, C');
    BgKeeps(cfg, c, C, C', b);
  }

  lemma AdvanceSystemClockKeeps(cfg: Config, c: nat, C: Client, C': Client)
    requires ClientInv(cfg, c, C) && AdvanceSystemClock(cfg, C, C')
    ensures ClientInv(cfg, c, C')
  {
    forall k', u ensures Flushed(cfg, C', k', u) == Flushed(cfg, C, k', u) {}
    CopiesStable(cfg, c, C, C');
    SameConserved(cfg, C, C');
    SameIndexed(cfg, C, C');
    SameFresh(cfg, C, C');
    forall b | 0 <= b < |C'.bgs| ensures BgOk(cfg, C', b) {
      assert BgOk(cfg, C, b);
    }
  }

  // ------------------------------------------------------------- Tick

  lemma TickEffect(cfg: Config, C: Client, C': Client, t: nat)
    requires Tick(cfg, C, C', t)
    ensures t in C.threads && C'.threads == C.threads[t := C.threads[t].(ticked := C.threads[t].ticked + 1, clocking := false)]
    ensures C'.issued == C.issued && C'.oplog == C.oplog && C'.index == C.index && C'.cache == C.cache
    ensures C.minClock <= C'.minClock <= C.minClock + 1
    ensures C'.minClock > C.minClock <==> UniqueMin(C, t)
    ensures |C'.bgs| == |C.bgs|
    ensures forall b | 0 <= b < |C.bgs| ::
              C'.bgs[b] == C.bgs[b].(clockMsgs := C.bgs[b].clockMsgs + (C'.minClock - C.minClock))
  {
  }

  lemma TickThreads(cfg: Config, c: nat, C: Client, C': Client, t: nat)
    requires ThreadsOk(c, C) && t in C.threads && C.threads[t].oplog == map[]
    requires C'.threads == C.threads[t := C.threads[t].(ticked := C.threads[t].ticked + 1, clocking := false)]
    requires C'.issued == C.issued && C.minClock <= C'.minClock <= C.minClock + 1
    requires C'.minClock > C.minClock ==> UniqueMin(C, t)
    ensures ThreadsOk(c, C')
  {
    forall t' | t' in C'.threads
      ensures C'.minClock <= C'.threads[t'].ticked
    {
      assert C.minClock <= C.threads[t'].ticked;
    }
    forall t', k, u | t' in C'.threads && At(C'.threads[t'].oplog, k)[u] > 0
      ensures u.thread == t' && u.clock == C'.threads[t'].ticked
    {
      assert t' != t && At(C.threads[t'].oplog, k)[u] > 0;
    }
  }

  lemma TickIndexed(cfg: Config, C: Client, C': Client, t: nat)
    requires Shape(cfg, C) && Indexed(cfg, C) && Tick(cfg, C, C', t)
    ensures Shape(cfg, C') && Indexed(cfg, C')
  {
    TickEffect(cfg, C, C', t);
    forall k, u | At(C'.oplog, k)[u] > 0
      ensures && u.thread in C'.threads
              && (k in BgOf(cfg, C', k).taking || k in C'.index || k in C'.threads[u.thread].index)
              && (u.clock < C'.threads[u.thread].ticked ==> k in BgOf(cfg, C', k).taking || k in C'.index)
    {
      assert At(C.oplog, k)[u] > 0;
      assert BgOf(cfg, C', k).taking == BgOf(cfg, C, k).taking;
    }
  }

  lemma TickCounts(cfg: Config, c: nat, C: Client, C': Client, t: nat)
    requires Shape(cfg, C) && Conserved(cfg, C) && CopiesOk(cfg, c, C) && LogFresh(cfg, C) && Tick(cfg, C, C', t)
    ensures Shape(cfg, C') && Conserved(cfg, C') && CopiesOk(cfg, c, C') && LogFresh(cfg, C')
  {
    TickEffect(cfg, C, C', t);
    forall k, u
      ensures Flushed(cfg, C', k, u) == Flushed(cfg, C, k, u)
      ensures Buffered(C', k, u) + Flushed(cfg, C', k, u) == if u in C'.issued && u.key == k then 1 else 0
    {
      assert Buffered(C, k, u) + Flushed(cfg, C, k, u) == if u in C.issued && u.key == k then 1 else 0;
    }
    CopiesStable(cfg, c, C, C');
    SameFresh(cfg, C, C');
  }

  lemma TickKeeps(cfg: Config, c: nat, C: Client, C': Client, t: nat)
    requires ClientInv(cfg, c, C) && Tick(cfg, C, C', t)
    ensures ClientInv(cfg, c, C')
  {
    TickEffect(cfg, C, C', t);
    TickThreads(cfg, c, C, C', t);
    TickIndexed(cfg, C, C', t);
    TickCounts(cfg, c, C, C', t);
    forall b | 0 <= b < |C'.bgs| ensures BgOk(cfg, C', b) {
      assert BgOk(cfg, C, b);
    }
  }
}
