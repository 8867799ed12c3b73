/** SSPPush: what a bg has been told about a row is enough for the clocks it has seen.

    Channels are judged from the head: `base` is what the receiver will have for row `k`
    when it gets there, and each clock message must find that good enough. */
module PushFreshness {
  import opened PsTypes
  import opened ClientNode
  import opened ClientProofs
  import opened Protocol
  import opened ProtocolProofs

  type MaybeCut = Option<map<nat, nat>>

  /** The cut holds every update to `k` tagged below `clock`, by any client, once. */
  ghost predicate Covers(cfg: Config, S: System, k: Key, cut: map<nat, nat>, clock: nat) {
    forall u: Update | u.client in S.clients && u in S.clients[u.client].issued && u.key == k && u.clock < clock ::
      Held(cfg, S, k, cut, u) == 1
  }

  ghost predicate SameHeld(cfg: Config, S: System, k: Key, cut: map<nat, nat>, cut': map<nat, nat>) {
    forall u :: Held(cfg, S, k, cut, u) == Held(cfg, S, k, cut', u)
  }

  /** What the receiver of `m` has for row `k` afterwards. */
  ghost function After(k: Key, base: MaybeCut, m: Msg): MaybeCut {
    if m.RowMsg? && m.key == k then Some(m.cut) else base
  }

  ghost function End(k: Key, base: MaybeCut, q: seq<Msg>): MaybeCut
    decreases |q|
  {
    if q == [] then base else End(k, After(k, base, q[0]), q[1..])
  }

  ghost predicate Good(cfg: Config, S: System, k: Key, base: MaybeCut, m: Msg) {
    m.ClockMsg? && base.Some? ==> Covers(cfg, S, k, base.value, m.clock)
  }

  ghost predicate ChanOk(cfg: Config, S: System, k: Key, base: MaybeCut, q: seq<Msg>)
    decreases |q|
  {
    q == [] || (Good(cfg, S, k, base, q[0]) && ChanOk(cfg, S, k, After(k, base, q[0]), q[1..]))
  }

  ghost function Tock(n: nat, m: Msg): nat {
    if m.ClockMsg? then n + 1 else n
  }

  ghost function EndClock(n: nat, q: seq<Msg>): nat
    decreases |q|
  {
    if q == [] then n else EndClock(Tock(n, q[0]), q[1..])
  }

  /** Clocks arrive one by one, and no row copy is older than a clock sent before it. */
  ghost predicate InStep(n: nat, m: Msg) {
    if m.ClockMsg? then m.clock == n + 1 else m.clock >= n
  }

  ghost predicate ClockSeq(n: nat, q: seq<Msg>)
    decreases |q|
  {
    q == [] || (InStep(n, q[0]) && ClockSeq(Tock(n, q[0]), q[1..]))
  }

  /** The copy of `k` the next message finds: one being inserted, else the cached one. */
  ghost function Base(cfg: Config, C: Client, k: Key): MaybeCut
    requires Shape(cfg, C)
  {
    if BuildingKey(cfg, C, k) then Some(BgOf(cfg, C, k).building.value.row.cut)
    else if k in C.cache then Some(C.cache[k].cut) else None
  }

  ghost predicate RowPushOk(cfg: Config, S: System, sv: Server, c: nat, C: Client, k: Key, seen: nat)
    requires Shape(cfg, C)
  {
    var b := Part(cfg, k);
    var q := Down(sv, c, b);
    var end := End(k, Base(cfg, C, k), q);
    && ChanOk(cfg, S, k, Base(cfg, C, k), q)
    && (end.Some? ==> Sub(k, c) in sv.subs && (k !in sv.dirty ==> SameHeld(cfg, S, k, end.value, Cut(S, sv, b))))
    && (forall row | HasCopy(cfg, C, k, row) :: Covers(cfg, S, k, row.cut, seen))
  }

  ghost predicate ClockPushOk(sv: Server, q: seq<Msg>, seen: nat) {
    && ClockSeq(seen, q)
    && EndClock(seen, q) + (if sv.pushDue then 1 else 0) == sv.minClock
  }

  ghost predicate PairOk(cfg: Config, S: System, s: nat, c: nat, b: nat)
    requires SysShape(cfg, S) && s < |S.servers| && c in S.clients && b < cfg.numBgs
  {
    var sv, C := S.servers[s], S.clients[c];
    && C.sysClock <= C.bgs[b].seen[s]
    && ClockPushOk(sv, Down(sv, c, b), C.bgs[b].seen[s])
    && forall k | Part(cfg, k) == b && ServerOf(cfg, k) == s :: RowPushOk(cfg, S, sv, c, C, k, C.bgs[b].seen[s])
  }

  ghost predicate PushInv(cfg: Config, S: System) {
    && SysShape(cfg, S)
    && forall s, c, b | 0 <= s < |S.servers| && c in S.clients && 0 <= b < cfg.numBgs :: PairOk(cfg, S, s, c, b)
  }

  // ------------------------------------------------ channels

  lemma {:induction false} EndAppend(k: Key, base: MaybeCut, q: seq<Msg>, m: Msg)
    ensures End(k, base, q + [m]) == After(k, End(k, base, q), m)
    decreases |q|
  {
    if q == [] {
      assert q + [m] == [m];
    } else {
      assert (q + [m])[1..] == q[1..] + [m];
      EndAppend(k, After(k, base, q[0]), q[1..], m);
    }
  }

  lemma {:induction false} ChanAppend(cfg: Config, S: System, k: Key, base: MaybeCut, q: seq<Msg>, m: Msg)
    requires ChanOk(cfg, S, k, base, q) && Good(cfg, S, k, End(k, base, q), m)
    ensures ChanOk(cfg, S, k, base, q + [m])
    decreases |q|
  {
    if q == [] {
      assert q + [m] == [m];
    } else {
      assert (q + [m])[1..] == q[1..] + [m];
      ChanAppend(cfg, S, k, After(k, base, q[0]), q[1..], m);
    }
  }

  /** A receiver that has lost its copy asks less of the channel. */
  lemma {:induction false} ChanForget(cfg: Config, S: System, k: Key, base: MaybeCut, q: seq<Msg>)
    requires ChanOk(cfg, S, k, base, q)
    ensures ChanOk(cfg, S, k, None, q)
    ensures End(k, None, q).Some? ==> End(k, None, q) == End(k, base, q)
    decreases |q|
  {
    if q != [] {
      if After(k, None, q[0]) == After(k, base, q[0]) {
      } else {
        ChanForget(cfg, S, k, base, q[1..]);
      }
    }
  }

  lemma {:induction false} ClockAppend(n: nat, q: seq<Msg>, m: Msg)
    requires ClockSeq(n, q) && InStep(EndClock(n, q), m)
    ensures ClockSeq(n, q + [m]) && EndClock(n, q + [m]) == Tock(EndClock(n, q), m)
    decreases |q|
  {
    if q == [] {
      assert q + [m] == [m];
    } else {
      assert (q + [m])[1..] == q[1..] + [m];
      ClockAppend(Tock(n, q[0]), q[1..], m);
    }
  }

  lemma {:induction false} EndClockGrows(n: nat, q: seq<Msg>)
    ensures n <= EndClock(n, q)
    decreases |q|
  {
    if q != [] {
      EndClockGrows(Tock(n, q[0]), q[1..]);
    }
  }

  // ------------------------------------------------ growing logs

  /** Logs grow, and what is newly issued is not older than `clock`. */
  ghost predicate GrowFrom(S: System, S': System, clock: nat) {
    && Grow(S, S')
    && forall u: Update | u.client in S'.clients && u in S'.clients[u.client].issued ::
         u in S.clients[u.client].issued || clock <= u.clock
  }

  lemma CoversStable(cfg: Config, S: System, S': System, k: Key, cut: map<nat, nat>, clock: nat, bound: nat)
    requires GrowFrom(S, S', bound) && clock <= bound && CutIn(cfg, S, k, cut) && Covers(cfg, S, k, cut, clock)
    ensures Covers(cfg, S', k, cut, clock)
  {
    forall u: Update | u.client in S'.clients && u in S'.clients[u.client].issued && u.key == k && u.clock < clock
      ensures Held(cfg, S', k, cut, u) == 1
    {
      HeldStable(cfg, S, S', k, cut, u);
    }
  }

  ghost predicate BaseIn(cfg: Config, S: System, k: Key, base: MaybeCut) {
    base.Some? ==> CutIn(cfg, S, k, base.value)
  }

  lemma {:induction false} ChanStable(cfg: Config, S: System, S': System, s: nat, k: Key, base: MaybeCut, n: nat, q: seq<Msg>, bound: nat)
    requires GrowFrom(S, S', bound) && ChanOk(cfg, S, k, base, q) && BaseIn(cfg, S, k, base)
    requires MsgsOk(cfg, S, s, Part(cfg, k), q) && ClockSeq(n, q) && EndClock(n, q) <= bound
    ensures ChanOk(cfg, S', k, base, q)
    ensures BaseIn(cfg, S, k, End(k, base, q))
    decreases |q|
  {
    if q != [] {
      var m := q[0];
      assert m in q && MsgOk(cfg, S, s, Part(cfg, k), m);
      EndClockGrows(Tock(n, m), q[1..]);
      if m.ClockMsg? && base.Some? {
        CoversStable(cfg, S, S', k, base.value, m.clock, bound);
      }
      ChanStable(cfg, S, S', s, k, After(k, base, m), Tock(n, m), q[1..], bound);
    }
  }

  lemma SameHeldStable(cfg: Config, S: System, S': System, k: Key, cut: map<nat, nat>, cut': map<nat, nat>)
    requires Grow(S, S') && CutIn(cfg, S, k, cut) && CutIn(cfg, S, k, cut') && SameHeld(cfg, S, k, cut, cut')
    ensures SameHeld(cfg, S', k, cut, cut')
  {
    forall u ensures Held(cfg, S', k, cut, u) == Held(cfg, S', k, cut', u) {
      HeldStable(cfg, S, S', k, cut, u);
      HeldStable(cfg, S, S', k, cut', u);
    }
  }

  /** Cuts only move forward with the logs, so every copy's cut lies inside them. */
  ghost predicate CopiesIn(cfg: Config, S: System, C: Client, k: Key)
    requires Shape(cfg, C)
  {
    forall row | HasCopy(cfg, C, k, row) :: CutIn(cfg, S, k, row.cut)
  }

  lemma CopiesInFrom(cfg: Config, S: System, c: nat, C: Client, k: Key)
    requires Shape(cfg, C) && ClientCopiesOk(cfg, S, c, C)
    ensures CopiesIn(cfg, S, C, k) && BaseIn(cfg, S, k, Base(cfg, C, k))
  {
    forall row | HasCopy(cfg, C, k, row) ensures CutIn(cfg, S, k, row.cut) {
      assert CopyOk(cfg, S, c, k, row);
    }
    if BuildingKey(cfg, C, k) {
      assert HasCopy(cfg, C, k, BgOf(cfg, C, k).building.value.row);
    } else if k in C.cache {
      assert HasCopy(cfg, C, k, C.cache[k]);
    }
  }

  /** `C'` has, for row `k`, copies from the same server copies as `C`, or none. */
  ghost predicate SameBase(cfg: Config, C: Client, C': Client, k: Key)
    requires Shape(cfg, C) && Shape(cfg, C')
  {
    && (Base(cfg, C', k) == Base(cfg, C, k) || Base(cfg, C', k) == None)
    && forall row' | HasCopy(cfg, C', k, row') :: exists row :: HasCopy(cfg, C, k, row) && row.cut == row'.cut
  }

  /** Row `k` stays well informed while a client, here or elsewhere, takes a step. */
  lemma RowPushStable(cfg: Config, S: System, S': System, s: nat, sv: Server, c: nat, C: Client, C': Client, k: Key, seen: nat)
    requires Shape(cfg, C) && Shape(cfg, C') && SameBase(cfg, C, C', k) && ClientCopiesOk(cfg, S, c, C)
    requires GrowFrom(S, S', sv.minClock) && ClocksOk(cfg, S, sv)
    requires MsgsOk(cfg, S, s, Part(cfg, k), Down(sv, c, Part(cfg, k))) && ClockPushOk(sv, Down(sv, c, Part(cfg, k)), seen)
    requires RowPushOk(cfg, S, sv, c, C, k, seen)
    ensures RowPushOk(cfg, S', sv, c, C', k, seen)
  {
    var b := Part(cfg, k);
    var q := Down(sv, c, b);
    var base, base' := Base(cfg, C, k), Base(cfg, C', k);
    CopiesInFrom(cfg, S, c, C, k);
    EndClockGrows(seen, q);
    ChanStable(cfg, S, S', s, k, base, seen, q, sv.minClock);
    ChanForget(cfg, S', k, base, q);
    var end := End(k, base, q);
    if end.Some? && k !in sv.dirty {
      CutWithin(cfg, S, sv, k);
      SameHeldStable(cfg, S, S', k, end.value, Cut(S, sv, b));
      assert Cut(S', sv, b) == Cut(S, sv, b);
    }
    forall row' | HasCopy(cfg, C', k, row') ensures Covers(cfg, S', k, row'.cut, seen) {
      var row :| HasCopy(cfg, C, k, row) && row.cut == row'.cut;
      CoversStable(cfg, S, S', k, row.cut, seen, sv.minClock);
    }
  }

  // ------------------------------------------------ client steps

  lemma DeliverSameBase(cfg: Config, C: Client, C': Client, k: Key, r: Row, k': Key)
    requires Shape(cfg, C) && Shape(cfg, C')
    requires C'.cache == Deliver(cfg, C, k, r).cache && C'.bgs == Deliver(cfg, C, k, r).bgs
    ensures SameBase(cfg, C, C', k')
  {
    forall row' | HasCopy(cfg, C', k', row') ensures exists row :: HasCopy(cfg, C, k', row) && row.cut == row'.cut {
      var row := if k' in C'.cache && C'.cache[k'] == row' then C.cache[k'] else BgOf(cfg, C, k').building.value.row;
      assert HasCopy(cfg, C, k', row) && row.cut == row'.cut;
    }
  }

  lemma QuietSameBase(cfg: Config, c: nat, C: Client, C': Client, step: Step, k: Key)
    requires Shape(cfg, C) && Shape(cfg, C') && ClientStep(cfg, c, C, C', step)
    requires !step.DoInc? && !step.DoFlushRow?
    requires step.DoInsert? && step.b < |C.bgs| && C.bgs[step.b].building.Some? ==>
               Part(cfg, C.bgs[step.b].building.value.key) == step.b
    ensures SameBase(cfg, C, C', k)
  {
    QuietStep(cfg, c, C, C', step);
    forall row' | HasCopy(cfg, C', k, row') ensures exists row :: HasCopy(cfg, C, k, row) && row.cut == row'.cut {
      assert HasCopy(cfg, C, k, row');
    }
  }

  lemma StepSameBase(cfg: Config, c: nat, C: Client, C': Client, step: Step, k: Key)
    requires ClientInv(cfg, c, C) && ClientStep(cfg, c, C, C', step) && Shape(cfg, C')
    ensures SameBase(cfg, C, C', k)
  {
    match step
    case DoInc(t, u) => DeliverSameBase(cfg, C, C', u.key, multiset{u}, k);
    case DoFlushRow(t, k') => DeliverSameBase(cfg, C, C', k', C.threads[t].oplog[k'], k);
    case _ => QuietSameBase(cfg, c, C, C', step, k);
  }

  /** A client step issues nothing older than the process clock and receives nothing. */
  lemma StepIssues(cfg: Config, c: nat, C: Client, C': Client, step: Step)
    requires Shape(cfg, C) && ThreadsOk(c, C) && ClientStep(cfg, c, C, C', step)
    ensures forall u | u in C'.issued :: u in C.issued || C.minClock <= u.clock
  {
  }

  lemma StepSees(cfg: Config, c: nat, C: Client, C': Client, step: Step)
    requires Shape(cfg, C) && ClientStep(cfg, c, C, C', step)
    ensures |C'.bgs| == |C.bgs| && forall b | 0 <= b < |C.bgs| :: C'.bgs[b].seen == C.bgs[b].seen
    ensures C'.sysClock == C.sysClock || forall b, s | 0 <= b < |C.bgs| && 0 <= s < |C.bgs[b].seen| :: C'.sysClock <= C.bgs[b].seen[s]
  {
  }

  /** No server is ahead of any client. */
  lemma ServerBehind(cfg: Config, S: System, s: nat, sv: Server, c: nat)
    requires c in S.clients && BgsOk(cfg, S.clients[c]) && Shape(cfg, S.clients[c]) && ClocksOk(cfg, S, sv)
    ensures sv.minClock <= S.clients[c].minClock
  {
    var b := Part(cfg, Key(0, 0));
    assert ClockOk(S, sv, c, b) && BgOk(cfg, S.clients[c], b);
    ClocksMonotone(Log(S, c, b), AppliedOf(sv, c, b), |Log(S, c, b)|);
  }

  /** A client step, as far as rows on their way to clients can tell. */
  ghost predicate Advanced(cfg: Config, S: System, S': System, c: nat) {
    && SysShape(cfg, S) && SysShape(cfg, S') && c in S.clients && S'.servers == S.servers
    && S'.clients.Keys == S.clients.Keys
    && (forall i | i in S.clients && i != c :: S'.clients[i] == S.clients[i])
    && (forall k :: SameBase(cfg, S.clients[c], S'.clients[c], k))
    && (forall b | 0 <= b < cfg.numBgs :: S'.clients[c].bgs[b].seen == S.clients[c].bgs[b].seen)
    && (S'.clients[c].sysClock == S.clients[c].sysClock ||
        forall b, s | 0 <= b < cfg.numBgs && 0 <= s < cfg.numServers :: S'.clients[c].sysClock <= S.clients[c].bgs[b].seen[s])
    && GrowFrom(S, S', S.clients[c].minClock)
  }

  /** The same, for the client alone. */
  ghost predicate ClientAdvanced(cfg: Config, C: Client, C': Client) {
    && Shape(cfg, C) && Shape(cfg, C') && LogsGrow(C, C')
    && (forall k :: SameBase(cfg, C, C', k))
    && (forall b | 0 <= b < cfg.numBgs :: C'.bgs[b].seen == C.bgs[b].seen)
    && (C'.sysClock == C.sysClock ||
        forall b, s | 0 <= b < cfg.numBgs && 0 <= s < cfg.numServers :: C'.sysClock <= C.bgs[b].seen[s])
    && (forall u | u in C'.issued :: u in C.issued || C.minClock <= u.clock)
  }

  lemma StepAdvances(cfg: Config, c: nat, C: Client, C': Client, step: Step)
    requires ClientInv(cfg, c, C) && ClientStep(cfg, c, C, C', step) && Shape(cfg, C')
    ensures ClientAdvanced(cfg, C, C')
  {
    ClientStepDerives(cfg, c, C, C', step);
    StepIssues(cfg, c, C, C', step);
    StepSees(cfg, c, C, C', step);
    forall k ensures SameBase(cfg, C, C', k) {
      StepSameBase(cfg, c, C, C', step, k);
    }
  }

  lemma SystemAdvances(cfg: Config, S: System, S': System, c: nat, C': Client)
    requires SysShape(cfg, S) && c in S.clients && ClientAdvanced(cfg, S.clients[c], C')
    requires S' == S.(clients := S.clients[c := C'])
    ensures Advanced(cfg, S, S', c)
  {
    GrowByClient(S, S', c, C');
  }

  lemma ClientMovesPush(cfg: Config, S: System, S': System, c: nat, C': Client, step: Step)
    requires Inv(cfg, S) && PushInv(cfg, S) && ClientMoves(cfg, S, S', c, C', step)
    ensures PushInv(cfg, S')
  {
    ClientStepKeeps(cfg, c, S.clients[c], C', step);
    StepAdvances(cfg, c, S.clients[c], C', step);
    SystemAdvances(cfg, S, S', c, C');
    AdvancePush(cfg, S, S', c);
  }

  lemma AdvancePush(cfg: Config, S: System, S': System, c0: nat)
    requires Inv(cfg, S) && PushInv(cfg, S) && Advanced(cfg, S, S', c0)
    ensures PushInv(cfg, S')
  {
    forall s, c, b | 0 <= s < |S'.servers| && c in S'.clients && 0 <= b < cfg.numBgs ensures PairOk(cfg, S', s, c, b) {
      assert ServerOk(cfg, S, s, S.servers[s]);
      ServerBehind(cfg, S, s, S.servers[s], c0);
      assert PairOk(cfg, S, s, c, b);
      if c != c0 {
        forall k ensures SameBase(cfg, S.clients[c], S'.clients[c], k) {}
      }
      PairStable(cfg, S, S', s, c, b);
    }
  }

  lemma PairStable(cfg: Config, S: System, S': System, s: nat, c: nat, b: nat)
    requires SysShape(cfg, S) && SysShape(cfg, S') && s < |S.servers| && c in S.clients && b < cfg.numBgs
    requires ServerOk(cfg, S, s, S.servers[s]) && ClientCopiesOk(cfg, S, c, S.clients[c]) && PairOk(cfg, S, s, c, b)
    requires S'.servers[s] == S.servers[s] && GrowFrom(S, S', S.servers[s].minClock)
    requires forall k :: SameBase(cfg, S.clients[c], S'.clients[c], k)
    requires S'.clients[c].bgs[b].seen == S.clients[c].bgs[b].seen
    requires S'.clients[c].sysClock <= S'.clients[c].bgs[b].seen[s]
    ensures PairOk(cfg, S', s, c, b)
  {
    var sv, C, C' := S.servers[s], S.clients[c], S'.clients[c];
    assert MsgsOk(cfg, S, s, b, Down(sv, c, b));
    forall k | Part(cfg, k) == b && ServerOf(cfg, k) == s
      ensures RowPushOk(cfg, S', sv, c, C', k, C'.bgs[b].seen[s])
    {
      RowPushStable(cfg, S, S', s, sv, c, C, C', k, C.bgs[b].seen[s]);
    }
  }

  // ------------------------------------------------ server steps

  ghost predicate ServerPushOk(cfg: Config, S: System, s: nat, sv: Server)
    requires SysShape(cfg, S) && s < cfg.numServers
  {
    forall c, b | c in S.clients && 0 <= b < cfg.numBgs :: ServerPairOk(cfg, S, s, sv, c, b)
  }

  ghost predicate ServerPairOk(cfg: Config, S: System, s: nat, sv: Server, c: nat, b: nat)
    requires SysShape(cfg, S) && s < cfg.numServers && c in S.clients && b < cfg.numBgs
  {
    var C := S.clients[c];
    && ClockPushOk(sv, Down(sv, c, b), C.bgs[b].seen[s])
    && forall k | Part(cfg, k) == b && ServerOf(cfg, k) == s :: RowPushOk(cfg, S, sv, c, C, k, C.bgs[b].seen[s])
  }

  lemma SameBaseRefl(cfg: Config, C: Client, k: Key)
    requires Shape(cfg, C)
    ensures SameBase(cfg, C, C, k)
  {
  }

  /** Server `s0` moved to a state that informs every client as well as before. */
  lemma ServerMovePush(cfg: Config, S: System, S': System, s0: nat, sv': Server)
    requires Inv(cfg, S) && PushInv(cfg, S) && s0 < |S.servers| && S' == S.(servers := S.servers[s0 := sv'])
    requires ServerOk(cfg, S, s0, sv') && ServerPushOk(cfg, S, s0, sv')
    ensures PushInv(cfg, S')
  {
    forall s, c, b | 0 <= s < |S'.servers| && c in S'.clients && 0 <= b < cfg.numBgs ensures PairOk(cfg, S', s, c, b) {
      assert PairOk(cfg, S, s, c, b);
      forall k ensures SameBase(cfg, S.clients[c], S.clients[c], k) {
        SameBaseRefl(cfg, S.clients[c], k);
      }
      if s == s0 {
        assert ServerPairOk(cfg, S, s, sv', c, b);
        MovedPair(cfg, S, S', s, sv', c, b);
      } else {
        PairStable(cfg, S, S', s, c, b);
      }
    }
  }

  lemma MovedPair(cfg: Config, S: System, S': System, s: nat, sv': Server, c: nat, b: nat)
    requires SysShape(cfg, S) && s < |S.servers| && c in S.clients && b < cfg.numBgs
    requires S' == S.(servers := S.servers[s := sv']) && ServerOk(cfg, S, s, sv') && ServerPairOk(cfg, S, s, sv', c, b)
    requires ClientCopiesOk(cfg, S, c, S.clients[c]) && S.clients[c].sysClock <= S.clients[c].bgs[b].seen[s]
    ensures PairOk(cfg, S', s, c, b)
  {
    var C := S.clients[c];
    assert GrowFrom(S, S', sv'.minClock);
    assert MsgsOk(cfg, S, s, b, Down(sv', c, b));
    forall k | Part(cfg, k) == b && ServerOf(cfg, k) == s ensures RowPushOk(cfg, S', sv', c, C, k, C.bgs[b].seen[s]) {
      SameBaseRefl(cfg, C, k);
      RowPushStable(cfg, S, S', s, sv', c, C, C, k, C.bgs[b].seen[s]);
    }
  }

  /** A row that an oplog message did not touch is the row it was. */
  lemma UntouchedRow(cfg: Config, S: System, s: nat, sv: Server, sv': Server, k: Key, end: map<nat, nat>)
    requires ServerOf(cfg, k) == s && RowsOk(cfg, S, s, sv) && RowsOk(cfg, S, s, sv') && At(sv'.rows, k) == At(sv.rows, k)
    requires SameHeld(cfg, S, k, end, Cut(S, sv, Part(cfg, k)))
    ensures SameHeld(cfg, S, k, end, Cut(S, sv', Part(cfg, k)))
  {
    forall u ensures Held(cfg, S, k, end, u) == Held(cfg, S, k, Cut(S, sv', Part(cfg, k)), u) {
      assert At(sv.rows, k)[u] == Held(cfg, S, k, Cut(S, sv, Part(cfg, k)), u);
    }
  }

  lemma ApplyPush(cfg: Config, S: System, S': System, s: nat, c: nat, b: nat)
    requires Inv(cfg, S) && PushInv(cfg, S) && Apply(cfg, S, S', s, c, b)
    ensures PushInv(cfg, S')
  {
    var sv := S.servers[s];
    var sh := Log(S, c, b)[AppliedOf(sv, c, b)];
    var sv' := Handled(cfg, S, sv, s, c, b, sh);
    HandledOk(cfg, S, s, sv, c, b);
    HandledFields(cfg, S, sv, s, c, b, sh);
    forall c', b' | c' in S.clients && 0 <= b' < cfg.numBgs ensures ServerPairOk(cfg, S, s, sv', c', b') {
      assert PairOk(cfg, S, s, c', b');
      HandledPair(cfg, S, s, sv, sv', c', b', sh);
    }
    ServerMovePush(cfg, S, S', s, sv');
  }

  lemma HandledPair(cfg: Config, S: System, s: nat, sv: Server, sv': Server, c: nat, b: nat, sh: Shipment)
    requires SysShape(cfg, S) && s < |S.servers| && c in S.clients && b < cfg.numBgs && ServerPairOk(cfg, S, s, sv, c, b)
    requires RowsOk(cfg, S, s, sv) && RowsOk(cfg, S, s, sv')
    requires sv'.rows == AddRows(sv.rows, Mine(cfg, s, sh.rows)) && sv'.dirty == sv.dirty + Mine(cfg, s, sh.rows).Keys
    requires sv'.down == sv.down && sv'.subs == sv.subs
    requires !sv.pushDue && sv'.minClock == sv.minClock + if sv'.pushDue then 1 else 0
    ensures ServerPairOk(cfg, S, s, sv', c, b)
  {
    var C := S.clients[c];
    var seen := C.bgs[b].seen[s];
    assert Down(sv', c, b) == Down(sv, c, b);
    forall k | Part(cfg, k) == b && ServerOf(cfg, k) == s ensures RowPushOk(cfg, S, sv', c, C, k, seen) {
      assert RowPushOk(cfg, S, sv, c, C, k, seen);
      var end := End(k, Base(cfg, C, k), Down(sv, c, b));
      if end.Some? && k !in sv'.dirty {
        AddRowsAt(cfg, s, sv.rows, sh.rows, k);
        UntouchedRow(cfg, S, s, sv, sv', k, end.value);
      }
    }
  }

  /** A copy with an honest clock holds every update tagged below that clock. */
  lemma CutOkCovers(cfg: Config, S: System, k: Key, clock: nat, cut: map<nat, nat>)
    requires SysShape(cfg, S) && (forall c | c in S.clients :: ClientInv(cfg, c, S.clients[c])) && CutOk(cfg, S, k, clock, cut)
    ensures Covers(cfg, S, k, cut, clock)
  {
    var b := Part(cfg, k);
    forall u: Update | u.client in S.clients && u in S.clients[u.client].issued && u.key == k && u.clock < clock
      ensures Held(cfg, S, k, cut, u) == 1
    {
      var C := S.clients[u.client];
      assert Log(S, u.client, b) == BgOf(cfg, C, u.key).log;
      assert LogCount(BgOf(cfg, C, u.key).log, cut[u.client], u.key, u) == 1;
    }
  }

  /** A copy sent now covers every clock the server has completed. */
  lemma CutCovers(cfg: Config, S: System, sv: Server, k: Key)
    requires SysShape(cfg, S) && (forall c | c in S.clients :: ClientInv(cfg, c, S.clients[c])) && ClocksOk(cfg, S, sv)
    ensures Covers(cfg, S, k, Cut(S, sv, Part(cfg, k)), sv.minClock)
  {
    forall c | c in S.clients ensures ClockOk(S, sv, c, Part(cfg, k)) {}
    CutOkCovers(cfg, S, k, sv.minClock, Cut(S, sv, Part(cfg, k)));
  }

  /** Appending a current copy of row `k` to the channel of (c, b). */
  lemma AppendCopy(cfg: Config, S: System, s: nat, sv: Server, base: MaybeCut, q: seq<Msg>, k: Key, k': Key, n: nat)
    requires ServerOf(cfg, k) == s
    requires ChanOk(cfg, S, k', base, q) && ClockSeq(n, q) && EndClock(n, q) <= sv.minClock
    ensures var q' := q + [RowMsgFor(cfg, S, sv, k)];
      && ChanOk(cfg, S, k', base, q') && ClockSeq(n, q') && EndClock(n, q') == EndClock(n, q)
      && End(k', base, q') == if k' == k then Some(Cut(S, sv, Part(cfg, k))) else End(k', base, q)
  {
    var m := RowMsgFor(cfg, S, sv, k);
    ChanAppend(cfg, S, k', base, q, m);
    EndAppend(k', base, q, m);
    ClockAppend(n, q, m);
  }

  lemma ReplyPair(cfg: Config, S: System, s: nat, sv: Server, sv': Server, c: nat, k: Key, c': nat, b': nat)
    requires SysShape(cfg, S) && s < |S.servers| && c' in S.clients && b' < cfg.numBgs && ServerOf(cfg, k) == s
    requires ServerPairOk(cfg, S, s, sv, c', b')
    requires sv' == sv.(down := sv.down[Ch(c, Part(cfg, k)) := Down(sv, c, Part(cfg, k)) + [RowMsgFor(cfg, S, sv, k)]],
                        subs := sv.subs + {Sub(k, c)})
    ensures ServerPairOk(cfg, S, s, sv', c', b')
  {
    var C := S.clients[c'];
    var seen := C.bgs[b'].seen[s];
    forall b ensures Cut(S, sv', b) == Cut(S, sv, b) {}
    if c' == c && b' == Part(cfg, k) {
      assert Down(sv', c, b') == Down(sv, c, b') + [RowMsgFor(cfg, S, sv, k)];
      AppendCopy(cfg, S, s, sv, Base(cfg, C, k), Down(sv, c, b'), k, k, seen) by {
        assert RowPushOk(cfg, S, sv, c, C, k, seen);
      }
    } else {
      assert Down(sv', c', b') == Down(sv, c', b');
    }
    forall k' | Part(cfg, k') == b' && ServerOf(cfg, k') == s ensures RowPushOk(cfg, S, sv', c', C, k', seen) {
      assert RowPushOk(cfg, S, sv, c', C, k', seen);
      if c' == c && b' == Part(cfg, k) {
        AppendCopy(cfg, S, s, sv, Base(cfg, C, k'), Down(sv, c, b'), k, k', seen);
      }
    }
  }

  lemma ReplyPush(cfg: Config, S: System, S': System, s: nat, c: nat, k: Key)
    requires Inv(cfg, S) && PushInv(cfg, S) && Reply(cfg, S, S', s, c, k) && cfg.mode == Push
    ensures PushInv(cfg, S')
  {
    var sv, sv' := S.servers[s], S'.servers[s];
    SameCore(cfg, S, s, sv, sv');
    ReplyMsgs(cfg, S, s, sv, sv', c, k);
    forall c', b' | c' in S.clients && 0 <= b' < cfg.numBgs ensures ServerPairOk(cfg, S, s, sv', c', b') {
      assert PairOk(cfg, S, s, c', b');
      ReplyPair(cfg, S, s, sv, sv', c, k, c', b');
    }
    ServerMovePush(cfg, S, S', s, sv');
  }

  /** Appending current copies of the rows `ks`. */
  lemma {:induction false} AppendCopies(cfg: Config, S: System, s: nat, sv: Server, base: MaybeCut, q: seq<Msg>, ks: seq<Key>, k: Key, n: nat)
    requires forall x | x in ks :: ServerOf(cfg, x) == s
    requires ChanOk(cfg, S, k, base, q) && ClockSeq(n, q) && EndClock(n, q) <= sv.minClock
    ensures var q' := q + RowMsgs(cfg, S, sv, ks);
      && ChanOk(cfg, S, k, base, q') && ClockSeq(n, q') && EndClock(n, q') == EndClock(n, q)
      && End(k, base, q') == if k in ks then Some(Cut(S, sv, Part(cfg, k))) else End(k, base, q)
    decreases |ks|
  {
    if ks == [] {
      assert q + RowMsgs(cfg, S, sv, ks) == q;
    } else {
      var ks', x := ks[..|ks| - 1], ks[|ks| - 1];
      AppendCopies(cfg, S, s, sv, base, q, ks', k, n);
      assert q + RowMsgs(cfg, S, sv, ks) == (q + RowMsgs(cfg, S, sv, ks')) + [RowMsgFor(cfg, S, sv, x)];
      assert ks == ks' + [x];
      AppendCopy(cfg, S, s, sv, base, q + RowMsgs(cfg, S, sv, ks'), x, k, n);
    }
  }

  /** After its due rows a bg has, for any row it holds, all the new clock promises. */
  lemma PushedRow(cfg: Config, S: System, s: nat, sv: Server, sv': Server, c: nat, b: nat, ks: seq<Key>, k: Key)
    requires SysShape(cfg, S) && s < |S.servers| && c in S.clients && b < cfg.numBgs
    requires forall i | i in S.clients :: ClientInv(cfg, i, S.clients[i])
    requires ClocksOk(cfg, S, sv) && Part(cfg, k) == b && ServerOf(cfg, k) == s && sv.pushDue
    requires forall x :: x in ks <==> Due(cfg, sv, s, c, b, x)
    requires ClockPushOk(sv, Down(sv, c, b), S.clients[c].bgs[b].seen[s])
    requires RowPushOk(cfg, S, sv, c, S.clients[c], k, S.clients[c].bgs[b].seen[s])
    requires sv'.applied == sv.applied && sv'.subs == sv.subs && sv'.minClock == sv.minClock && !sv'.pushDue
    requires sv'.dirty == set x | x in sv.dirty && !Subscribed(S, sv, x)
    requires Down(sv', c, b) == Down(sv, c, b) + RowMsgs(cfg, S, sv, ks) + [ClockMsgFor(sv, c, b)]
    ensures RowPushOk(cfg, S, sv', c, S.clients[c], k, S.clients[c].bgs[b].seen[s])
    ensures ClockPushOk(sv', Down(sv', c, b), S.clients[c].bgs[b].seen[s])
  {
    var C := S.clients[c];
    var base, q, n := Base(cfg, C, k), Down(sv, c, b), C.bgs[b].seen[s];
    var mid := q + RowMsgs(cfg, S, sv, ks);
    AppendCopies(cfg, S, s, sv, base, q, ks, k, n);
    var cut := Cut(S, sv, b);
    CutCovers(cfg, S, sv, k);
    var end := End(k, base, mid);
    if end.Some? {
      assert SameHeld(cfg, S, k, end.value, cut);
      assert Covers(cfg, S, k, end.value, sv.minClock);
    }
    ChanAppend(cfg, S, k, base, mid, ClockMsgFor(sv, c, b));
    EndAppend(k, base, mid, ClockMsgFor(sv, c, b));
    ClockAppend(n, mid, ClockMsgFor(sv, c, b));
    assert Cut(S, sv', b) == cut;
  }

  lemma PushedPair(cfg: Config, S: System, s: nat, sv: Server, sv': Server, c: nat, b: nat)
    requires SysShape(cfg, S) && s < |S.servers| && c in S.clients && b < cfg.numBgs
    requires forall i | i in S.clients :: ClientInv(cfg, i, S.clients[i])
    requires ClocksOk(cfg, S, sv) && sv.pushDue && ServerPairOk(cfg, S, s, sv, c, b) && Pushed(cfg, S, sv, s, c, b, sv'.down)
    requires sv'.applied == sv.applied && sv'.subs == sv.subs && sv'.minClock == sv.minClock && !sv'.pushDue
    requires sv'.dirty == set x | x in sv.dirty && !Subscribed(S, sv, x)
    ensures ServerPairOk(cfg, S, s, sv', c, b)
  {
    var ks: seq<Key> :|
      && (forall k :: k in ks <==> Due(cfg, sv, s, c, b, k))
      && sv'.down[Ch(c, b)] == Down(sv, c, b) + RowMsgs(cfg, S, sv, ks) + [ClockMsgFor(sv, c, b)];
    var n := S.clients[c].bgs[b].seen[s];
    forall k | Part(cfg, k) == b && ServerOf(cfg, k) == s ensures RowPushOk(cfg, S, sv', c, S.clients[c], k, n) {
      PushedRow(cfg, S, s, sv, sv', c, b, ks, k);
    }
    PushedClock(cfg, S, sv, c, b, Down(sv, c, b), ks, n);
  }

  lemma {:induction false} PushedClock(cfg: Config, S: System, sv: Server, c: nat, b: nat, q: seq<Msg>, ks: seq<Key>, n: nat)
    requires ClockSeq(n, q) && EndClock(n, q) + 1 == sv.minClock
    ensures var q' := q + RowMsgs(cfg, S, sv, ks) + [ClockMsgFor(sv, c, b)];
      ClockSeq(n, q') && EndClock(n, q') == sv.minClock
    decreases |ks|
  {
    RowsClock(cfg, S, sv, q, ks, n);
    ClockAppend(n, q + RowMsgs(cfg, S, sv, ks), ClockMsgFor(sv, c, b));
  }

  lemma {:induction false} RowsClock(cfg: Config, S: System, sv: Server, q: seq<Msg>, ks: seq<Key>, n: nat)
    requires ClockSeq(n, q) && EndClock(n, q) <= sv.minClock
    ensures ClockSeq(n, q + RowMsgs(cfg, S, sv, ks)) && EndClock(n, q + RowMsgs(cfg, S, sv, ks)) == EndClock(n, q)
    decreases |ks|
  {
    if ks == [] {
      assert q + RowMsgs(cfg, S, sv, ks) == q;
    } else {
      var ks', x := ks[..|ks| - 1], ks[|ks| - 1];
      RowsClock(cfg, S, sv, q, ks', n);
      assert q + RowMsgs(cfg, S, sv, ks) == (q + RowMsgs(cfg, S, sv, ks')) + [RowMsgFor(cfg, S, sv, x)];
      ClockAppend(n, q + RowMsgs(cfg, S, sv, ks'), RowMsgFor(cfg, S, sv, x));
    }
  }

  lemma PushAllPush(cfg: Config, S: System, S': System, s: nat, down': map<Ch, seq<Msg>>)
    requires Inv(cfg, S) && PushInv(cfg, S) && PushAll(cfg, S, S', s, down') && cfg.mode == Push
    ensures PushInv(cfg, S')
  {
    var sv, sv' := S.servers[s], S'.servers[s];
    SameCore(cfg, S, s, sv, sv');
    forall c, b | c in S.clients && 0 <= b < cfg.numBgs
      ensures MsgsOk(cfg, S, s, b, Down(sv', c, b)) && ServerPairOk(cfg, S, s, sv', c, b)
    {
      assert MsgsOk(cfg, S, s, b, Down(sv, c, b)) && PairOk(cfg, S, s, c, b) && Pushed(cfg, S, sv, s, c, b, down');
      PushMsgs(cfg, S, s, sv, c, b, down');
      PushedPair(cfg, S, s, sv, sv', c, b);
    }
    ServerMovePush(cfg, S, S', s, sv');
  }

  // ------------------------------------------------ receiving

  /** The channel to (c, b) without its first message. */
  ghost function Popped(sv: Server, c: nat, b: nat): Server
    requires Down(sv, c, b) != []
  {
    sv.(down := sv.down[Ch(c, b) := Down(sv, c, b)[1..]])
  }

  lemma PoppedRow(cfg: Config, S: System, sv: Server, c: nat, C: Client, C': Client, k: Key, seen: nat, seen': nat)
    requires Shape(cfg, C) && Shape(cfg, C') && Down(sv, c, Part(cfg, k)) != [] && RowPushOk(cfg, S, sv, c, C, k, seen)
    requires Base(cfg, C', k) == After(k, Base(cfg, C, k), Down(sv, c, Part(cfg, k))[0])
    requires forall row | HasCopy(cfg, C', k, row) :: Covers(cfg, S, k, row.cut, seen')
    ensures RowPushOk(cfg, S, Popped(sv, c, Part(cfg, k)), c, C', k, seen')
  {
    var b := Part(cfg, k);
    assert Cut(S, Popped(sv, c, b), b) == Cut(S, sv, b);
  }

  /** The receiver's copies after a row message: those it had, and the one it now builds. */
  lemma BuiltBase(cfg: Config, c: nat, C: Client, C': Client, m: Msg, k: Key)
    requires Shape(cfg, C) && m.RowMsg? && BuildRow(cfg, c, C, C', m.key, m.clock, m.content, m.cut)
    ensures Shape(cfg, C') && Base(cfg, C', k) == After(k, Base(cfg, C, k), m)
    ensures forall row | HasCopy(cfg, C', k, row) :: HasCopy(cfg, C, k, row) || (k == m.key && row.cut == m.cut)
  {
  }

  lemma SeenBase(cfg: Config, C: Client, C': Client, b: nat, s: nat, clock: nat, k: Key)
    requires Shape(cfg, C) && SeeClock(cfg, C, C', b, s, clock)
    ensures Shape(cfg, C') && Base(cfg, C', k) == Base(cfg, C, k)
    ensures forall row | HasCopy(cfg, C', k, row) :: HasCopy(cfg, C, k, row)
    ensures Part(cfg, k) == b ==> forall row | HasCopy(cfg, C', k, row) :: Base(cfg, C, k) == Some(row.cut)
  {
  }

  /** The channel that delivered: what it told the client is what the client now has. */
  lemma ReceivedRow(cfg: Config, S: System, s: nat, sv: Server, c: nat, b: nat, C: Client, C': Client, m: Msg, k: Key)
    requires SysShape(cfg, S) && (forall i | i in S.clients :: ClientInv(cfg, i, S.clients[i])) && s < cfg.numServers
    requires Shape(cfg, C) && b < cfg.numBgs && Part(cfg, k) == b && Down(sv, c, b) != [] && m == Down(sv, c, b)[0]
    requires MsgOk(cfg, S, s, b, m) && ClockSeq(C.bgs[b].seen[s], Down(sv, c, b))
    requires RowPushOk(cfg, S, sv, c, C, k, C.bgs[b].seen[s])
    requires if m.RowMsg? then BuildRow(cfg, c, C, C', m.key, m.clock, m.content, m.cut) else SeeClock(cfg, C, C', b, s, m.clock)
    ensures Shape(cfg, C') && RowPushOk(cfg, S, Popped(sv, c, b), c, C', k, C'.bgs[b].seen[s])
  {
    var seen := C.bgs[b].seen[s];
    if m.RowMsg? {
      BuiltBase(cfg, c, C, C', m, k);
      forall row | HasCopy(cfg, C', k, row) ensures Covers(cfg, S, k, row.cut, seen) {
        if !HasCopy(cfg, C, k, row) {
          CutOkCovers(cfg, S, k, m.clock, m.cut);
        }
      }
    } else {
      SeenBase(cfg, C, C', b, s, m.clock, k);
    }
    PoppedRow(cfg, S, sv, c, C, C', k, seen, C'.bgs[b].seen[s]);
  }

  /** A clock message is always the next clock, and the bg's record of the server moves with it. */
  lemma ReceivedClock(cfg: Config, c: nat, C: Client, C': Client, s: nat, b: nat, sv: Server, m: Msg)
    requires Shape(cfg, C) && s < cfg.numServers && b < cfg.numBgs && Down(sv, c, b) != [] && m == Down(sv, c, b)[0]
    requires if m.RowMsg? then BuildRow(cfg, c, C, C', m.key, m.clock, m.content, m.cut) else SeeClock(cfg, C, C', b, s, m.clock)
    requires ClockPushOk(sv, Down(sv, c, b), C.bgs[b].seen[s])
    ensures Shape(cfg, C') && C'.bgs[b].seen[s] == Tock(C.bgs[b].seen[s], m) && C'.sysClock == C.sysClock
    ensures ClockPushOk(Popped(sv, c, b), Down(Popped(sv, c, b), c, b), C'.bgs[b].seen[s])
  {
  }

  /** Receiving ships nothing and issues nothing. */
  lemma ReceiveGrows(cfg: Config, S: System, S': System, s: nat, c: nat, b: nat, C': Client, clock: nat)
    requires SysShape(cfg, S) && Receive(cfg, S, S', s, c, b, C')
    ensures GrowFrom(S, S', clock) && SysShape(cfg, S')
  {
    assert LogsGrow(S.clients[c], C');
    GrowByClient(S, S', c, C');
  }

  /** The receiving client and the shortened channel, before the rest of the system is looked at. */
  lemma ReceivedPair(cfg: Config, S: System, S': System, s: nat, c: nat, b: nat, C': Client)
    requires SysShape(cfg, S) && SysShape(cfg, S') && (forall i | i in S.clients :: ClientInv(cfg, i, S.clients[i]))
    requires Receive(cfg, S, S', s, c, b, C') && ServerOk(cfg, S, s, S.servers[s]) && PairOk(cfg, S, s, c, b)
    requires ClientCopiesOk(cfg, S, c, C')
    ensures PairOk(cfg, S', s, c, b)
  {
    var C, sv := S.clients[c], S.servers[s];
    var m, sv' := Down(sv, c, b)[0], Popped(sv, c, b);
    assert MsgsOk(cfg, S, s, b, Down(sv, c, b)) && MsgOk(cfg, S, s, b, m);
    assert MsgsOk(cfg, S, s, b, Down(sv', c, b));
    var seen' := C'.bgs[b].seen[s];
    ReceivedClock(cfg, c, C, C', s, b, sv, m);
    ReceiveGrows(cfg, S, S', s, c, b, C', sv'.minClock);
    SameCore(cfg, S, s, sv, sv');
    forall k | Part(cfg, k) == b && ServerOf(cfg, k) == s ensures RowPushOk(cfg, S', sv', c, C', k, seen') {
      ReceivedRow(cfg, S, s, sv, c, b, C, C', m, k);
      SameBaseRefl(cfg, C', k);
      RowPushStable(cfg, S, S', s, sv', c, C', C', k, seen');
    }
  }

  /** Row `k` of another channel of the same server does not notice. */
  lemma OtherChannel(cfg: Config, S: System, sv: Server, sv': Server, c: nat, C: Client, k: Key, seen: nat)
    requires Shape(cfg, C) && RowPushOk(cfg, S, sv, c, C, k, seen)
    requires Down(sv', c, Part(cfg, k)) == Down(sv, c, Part(cfg, k))
    requires sv'.applied == sv.applied && sv'.subs == sv.subs && sv'.dirty == sv.dirty
    ensures RowPushOk(cfg, S, sv', c, C, k, seen)
  {
    assert Cut(S, sv', Part(cfg, k)) == Cut(S, sv, Part(cfg, k));
  }

  lemma OtherPair(cfg: Config, S: System, S': System, s: nat, c: nat, b: nat)
    requires SysShape(cfg, S) && SysShape(cfg, S') && s < |S.servers| && c in S.clients && c in S'.clients && b < cfg.numBgs
    requires ServerOk(cfg, S, s, S.servers[s]) && ClientCopiesOk(cfg, S, c, S.clients[c]) && PairOk(cfg, S, s, c, b)
    requires GrowFrom(S, S', S.servers[s].minClock)
    requires S'.servers[s] == S.servers[s].(down := S'.servers[s].down) && Down(S'.servers[s], c, b) == Down(S.servers[s], c, b)
    requires forall k | Part(cfg, k) == b && ServerOf(cfg, k) == s :: SameBase(cfg, S.clients[c], S'.clients[c], k)
    requires S'.clients[c].bgs[b].seen[s] == S.clients[c].bgs[b].seen[s] && S'.clients[c].sysClock == S.clients[c].sysClock
    ensures PairOk(cfg, S', s, c, b)
  {
    var sv, sv', C, C' := S.servers[s], S'.servers[s], S.clients[c], S'.clients[c];
    var seen := C.bgs[b].seen[s];
    assert MsgsOk(cfg, S, s, b, Down(sv, c, b));
    SameCore(cfg, S, s, sv, sv');
    forall k | Part(cfg, k) == b && ServerOf(cfg, k) == s ensures RowPushOk(cfg, S', sv', c, C', k, seen) {
      OtherChannel(cfg, S, sv, sv', c, C, k, seen);
      RowPushStable(cfg, S, S', s, sv', c, C, C', k, seen);
    }
  }

  /** Elsewhere in the client nothing changed but the row being built. */
  lemma ReceivedElsewhere(cfg: Config, c: nat, C: Client, C': Client, s: nat, b: nat, m: Msg, k: Key)
    requires Shape(cfg, C) && Shape(cfg, C')
    requires if m.RowMsg? then BuildRow(cfg, c, C, C', m.key, m.clock, m.content, m.cut) else SeeClock(cfg, C, C', b, s, m.clock)
    requires m.RowMsg? ==> k != m.key
    ensures SameBase(cfg, C, C', k)
  {
    if m.RowMsg? {
      BuiltBase(cfg, c, C, C', m, k);
    } else {
      SeenBase(cfg, C, C', b, s, m.clock, k);
    }
  }

  /** A channel other than the one that delivered. */
  lemma ReceivedOther(cfg: Config, S: System, S': System, s: nat, c: nat, b: nat, C': Client, s': nat, c': nat, b': nat)
    requires SysShape(cfg, S) && SysShape(cfg, S') && Receive(cfg, S, S', s, c, b, C')
    requires s' < |S.servers| && c' in S.clients && b' < cfg.numBgs && (s' != s || c' != c || b' != b)
    requires MsgOk(cfg, S, s, b, Down(S.servers[s], c, b)[0])
    requires ServerOk(cfg, S, s', S.servers[s']) && ClientCopiesOk(cfg, S, c', S.clients[c']) && PairOk(cfg, S, s', c', b')
    ensures PairOk(cfg, S', s', c', b')
  {
    var m := Down(S.servers[s], c, b)[0];
    ReceiveGrows(cfg, S, S', s, c, b, C', S.servers[s'].minClock);
    forall k | Part(cfg, k) == b' && ServerOf(cfg, k) == s' ensures SameBase(cfg, S.clients[c'], S'.clients[c'], k) {
      if c' == c {
        ReceivedElsewhere(cfg, c, S.clients[c], C', s, b, m, k);
      } else {
        SameBaseRefl(cfg, S.clients[c'], k);
      }
    }
    OtherPair(cfg, S, S', s', c', b');
  }

  lemma ReceivePush(cfg: Config, S: System, S': System, s: nat, c: nat, b: nat, C': Client)
    requires Inv(cfg, S) && PushInv(cfg, S) && Receive(cfg, S, S', s, c, b, C')
    ensures PushInv(cfg, S')
  {
    var m := Down(S.servers[s], c, b)[0];
    assert MsgsOk(cfg, S, s, b, Down(S.servers[s], c, b)) && MsgOk(cfg, S, s, b, m);
    ReceivedCopies(cfg, S, s, c, b, C', m);
    ReceiveGrows(cfg, S, S', s, c, b, C', 0);
    forall s', c', b' | 0 <= s' < |S'.servers| && c' in S'.clients && 0 <= b' < cfg.numBgs ensures PairOk(cfg, S', s', c', b') {
      assert PairOk(cfg, S, s', c', b') && ServerOk(cfg, S, s', S.servers[s']);
      if s' == s && c' == c && b' == b {
        ReceivedPair(cfg, S, S', s, c, b, C');
      } else {
        ReceivedOther(cfg, S, S', s, c, b, C', s', c', b');
      }
    }
  }

  lemma ReceivedCopies(cfg: Config, S: System, s: nat, c: nat, b: nat, C': Client, m: Msg)
    requires SysShape(cfg, S) && c in S.clients && ClientInv(cfg, c, S.clients[c]) && ClientCopiesOk(cfg, S, c, S.clients[c])
    requires MsgOk(cfg, S, s, b, m)
    requires if m.RowMsg? then BuildRow(cfg, c, S.clients[c], C', m.key, m.clock, m.content, m.cut)
             else SeeClock(cfg, S.clients[c], C', b, s, m.clock)
    ensures Shape(cfg, C') && ClientCopiesOk(cfg, S, c, C')
  {
    if m.RowMsg? {
      BuiltCopies(cfg, S, S, s, c, S.clients[c], C', m);
    } else {
      SeenCopies(cfg, S, S, c, S.clients[c], C', b, s, m.clock);
    }
  }

  // ------------------------------------------------ runs

  lemma InitPush(cfg: Config, S: System)
    requires Init(cfg, S)
    ensures PushInv(cfg, S)
  {
  }

  lemma NextPush(cfg: Config, S: System, S': System)
    requires cfg.mode == Push && Inv(cfg, S) && PushInv(cfg, S) && Next(cfg, S, S')
    ensures PushInv(cfg, S')
  {
    if c, C', step :| ClientMoves(cfg, S, S', c, C', step) {
      ClientMovesPush(cfg, S, S', c, C', step);
    } else if s, c, b :| Apply(cfg, S, S', s, c, b) {
      ApplyPush(cfg, S, S', s, c, b);
    } else if s, c, k :| Reply(cfg, S, S', s, c, k) {
      ReplyPush(cfg, S, S', s, c, k);
    } else if s, down' :| PushAll(cfg, S, S', s, down') {
      PushAllPush(cfg, S, S', s, down');
    } else {
      var s, c, b, C' :| Receive(cfg, S, S', s, c, b, C');
      ReceivePush(cfg, S, S', s, c, b, C');
    }
  }

  /** Under SSPPush the push invariant holds in every state of every run. */
  lemma {:induction false} RunPush(cfg: Config, run: seq<System>, i: nat)
    requires cfg.mode == Push && IsRun(cfg, run) && i < |run|
    ensures PushInv(cfg, run[i])
  {
    if i == 0 {
      InitPush(cfg, run[0]);
    } else {
      RunPush(cfg, run, i - 1);
      RunInv(cfg, run, i - 1);
      assert Next(cfg, run[i - 1], run[i - 1 + 1]);
      NextPush(cfg, run[i - 1], run[i]);
    }
  }
}
