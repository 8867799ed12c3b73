/** Reads succeed once they are served.

    Freshness bounds what a read may show; here is the other side: what a server sends in answer to a
    request is good enough, when it has been received and inserted, for every thread the server's clock
    is good enough for. */
module ServedReads {
  import opened PsTypes
  import opened ClientNode
  import opened Protocol
  import opened ProtocolProofs
  import opened PushFreshness

  ghost function Queue(S: System, s: nat, c: nat, b: nat): seq<Msg> {
    if s < |S.servers| then Down(S.servers[s], c, b) else []
  }

  ghost function ClockOf(S: System, s: nat): nat {
    if s < |S.servers| then S.servers[s].minClock else 0
  }

  /** From place `p` on, no copy of row `k` is older than `low`. */
  ghost predicate NoneOlder(q: seq<Msg>, p: nat, k: Key, low: nat) {
    forall i | p <= i < |q| :: q[i].RowMsg? && q[i].key == k ==> q[i].clock >= low
  }

  /** The copy of `k` being inserted, or else the cached one, is there and not older than `low`. */
  ghost predicate Holds(cfg: Config, C: Client, k: Key, low: nat)
    requires Shape(cfg, C)
  {
    if BuildingKey(cfg, C, k) then BgOf(cfg, C, k).building.value.row.clock >= low
    else k in C.cache && C.cache[k].clock >= low
  }

  /** A copy of `k` not older than `low` is at place `p` of the channel from server `s`. */
  ghost predicate Awaited(cfg: Config, S: System, s: nat, c: nat, k: Key, low: nat, p: nat) {
    var q := Queue(S, s, c, Part(cfg, k));
    low <= ClockOf(S, s) && p < |q| && q[p].RowMsg? && q[p].key == k && NoneOlder(q, p, k, low)
  }

  /** It has been received, and nothing older can follow. */
  ghost predicate Landed(cfg: Config, S: System, s: nat, c: nat, k: Key, low: nat) {
    && SysShape(cfg, S) && low <= ClockOf(S, s) && c in S.clients && Holds(cfg, S.clients[c], k, low)
    && NoneOlder(Queue(S, s, c, Part(cfg, k)), 0, k, low)
  }

  // ------------------------------------------------ the channel

  /** The channel is only extended, by nothing older than `low`, and the server's clock does not go back. */
  ghost predicate Extended(S: System, S': System, s: nat, c: nat, b: nat, low: nat) {
    var q, q' := Queue(S, s, c, b), Queue(S', s, c, b);
    && ClockOf(S, s) <= ClockOf(S', s) && |q| <= |q'|
    && (forall i | 0 <= i < |q| :: q'[i] == q[i])
    && (forall i | |q| <= i < |q'| :: q'[i].RowMsg? ==> q'[i].clock >= low)
  }

  lemma {:induction false} ApplyExtends(cfg: Config, S: System, S': System, s: nat, c: nat, b: nat, s': nat, i: nat, j: nat, low: nat)
    requires Apply(cfg, S, S', s', i, j)
    ensures Extended(S, S', s, c, b, low)
  {
    var sv := S.servers[s'];
    HandledFields(cfg, S, sv, s', i, j, Log(S, i, j)[AppliedOf(sv, i, j)]);
  }

  lemma {:induction false} ReplyExtends(cfg: Config, S: System, S': System, s: nat, c: nat, b: nat, s': nat, i: nat, k: Key, low: nat)
    requires Reply(cfg, S, S', s', i, k) && low <= ClockOf(S, s)
    ensures Extended(S, S', s, c, b, low)
  {
  }

  lemma {:induction false} PushExtends(cfg: Config, S: System, S': System, s: nat, c: nat, b: nat, s': nat, down': map<Ch, seq<Msg>>, low: nat)
    requires PushAll(cfg, S, S', s', down') && c in S.clients && b < cfg.numBgs && low <= ClockOf(S, s)
    ensures Extended(S, S', s, c, b, low)
  {
    if s' == s && cfg.mode == Push {
      var sv := S.servers[s];
      assert Pushed(cfg, S, sv, s, c, b, down');
      var ks: seq<Key> :|
        && (forall k :: k in ks <==> Due(cfg, sv, s, c, b, k))
        && down'[Ch(c, b)] == Down(sv, c, b) + RowMsgs(cfg, S, sv, ks) + [ClockMsgFor(sv, c, b)];
      assert Queue(S', s, c, b) == down'[Ch(c, b)];
    }
  }

  lemma {:induction false} OtherReceiveExtends(cfg: Config, S: System, S': System, s: nat, c: nat, b: nat, s': nat, i: nat, j: nat, C': Client, low: nat)
    requires SysShape(cfg, S) && Receive(cfg, S, S', s', i, j, C') && !(s' == s && i == c && j == b)
    ensures Extended(S, S', s, c, b, low)
  {
  }

  lemma {:induction false} ExtendedStays(S: System, S': System, s: nat, c: nat, b: nat, k: Key, low: nat, p: nat)
    requires Extended(S, S', s, c, b, low) && NoneOlder(Queue(S, s, c, b), p, k, low)
    ensures NoneOlder(Queue(S', s, c, b), p, k, low)
  {
  }

  // ------------------------------------------------ the receiver

  /** Row `k` is not dropped from the cache of client `c`. */
  ghost predicate NotEvicted(S: System, S': System, c: nat, k: Key) {
    c in S.clients && c in S'.clients && k in S.clients[c].cache ==> k in S'.clients[c].cache
  }

  lemma {:induction false} DeliverHolds(cfg: Config, C: Client, C': Client, k: Key, low: nat, k': Key, r: Row)
    requires Shape(cfg, C) && Shape(cfg, C') && Holds(cfg, C, k, low)
    requires C'.cache == Deliver(cfg, C, k', r).cache && C'.bgs == Deliver(cfg, C, k', r).bgs
    ensures Holds(cfg, C', k, low)
  {
  }

  lemma {:induction false} InsertHolds(cfg: Config, C: Client, C': Client, k: Key, low: nat, b: nat)
    requires Shape(cfg, C) && Holds(cfg, C, k, low) && InsertRow(cfg, C, C', b)
    requires Part(cfg, C.bgs[b].building.value.key) == b
    ensures Shape(cfg, C') && Holds(cfg, C', k, low)
  {
  }

  lemma {:induction false} OtherHolds(cfg: Config, c: nat, C: Client, C': Client, step: Step, k: Key, low: nat)
    requires Shape(cfg, C) && Shape(cfg, C') && ClientStep(cfg, c, C, C', step) && Holds(cfg, C, k, low)
    requires k in C.cache ==> k in C'.cache
    requires !step.DoInc? && !step.DoFlushRow? && !step.DoInsert?
    ensures Holds(cfg, C', k, low)
  {
  }

  /** No step of the client itself loses the copy, except eviction. */
  lemma {:induction false} MoveHolds(cfg: Config, c: nat, C: Client, C': Client, step: Step, k: Key, low: nat)
    requires Shape(cfg, C) && Shape(cfg, C') && ClientStep(cfg, c, C, C', step) && Holds(cfg, C, k, low)
    requires k in C.cache ==> k in C'.cache
    requires forall b | 0 <= b < |C.bgs| && C.bgs[b].building.Some? :: Part(cfg, C.bgs[b].building.value.key) == b
    ensures Holds(cfg, C', k, low)
  {
    match step
    case DoInc(t, u) => DeliverHolds(cfg, C, C', k, low, u.key, multiset{u});
    case DoFlushRow(t, k') => DeliverHolds(cfg, C, C', k, low, k', C.threads[t].oplog[k']);
    case DoInsert(b) => InsertHolds(cfg, C, C', k, low, b);
    case _ => OtherHolds(cfg, c, C, C', step, k, low);
  }

  /** A message that is not an older copy of `k` leaves the receiver a copy, and one of `k` gives it one. */
  lemma {:induction false} MessageHolds(cfg: Config, c: nat, C: Client, C': Client, s: nat, b: nat, m: Msg, k: Key, low: nat)
    requires Shape(cfg, C) && Shape(cfg, C')
    requires if m.RowMsg? then BuildRow(cfg, c, C, C', m.key, m.clock, m.content, m.cut) else SeeClock(cfg, C, C', b, s, m.clock)
    requires m.RowMsg? && m.key == k ==> m.clock >= low
    requires Holds(cfg, C, k, low) || (m.RowMsg? && m.key == k)
    ensures Holds(cfg, C', k, low)
  {
  }

  lemma {:induction false} PartsOf(cfg: Config, S: System, c: nat)
    requires Inv(cfg, S) && c in S.clients
    ensures var C := S.clients[c];
      forall b | 0 <= b < |C.bgs| && C.bgs[b].building.Some? :: Part(cfg, C.bgs[b].building.value.key) == b
  {
    assert ClientInv(cfg, c, S.clients[c]);
  }

  lemma {:induction false} HeadIsOwn(cfg: Config, S: System, s: nat, c: nat, b: nat)
    requires Inv(cfg, S) && s < |S.servers| && c in S.clients && b < cfg.numBgs && Queue(S, s, c, b) != []
    ensures var m := Queue(S, s, c, b)[0]; m.RowMsg? ==> Part(cfg, m.key) == b && ServerOf(cfg, m.key) == s
  {
    assert ServerOk(cfg, S, s, S.servers[s]);
    assert MsgsOk(cfg, S, s, b, Down(S.servers[s], c, b));
    assert MsgOk(cfg, S, s, b, Down(S.servers[s], c, b)[0]);
  }

  /** The step takes a message off the channel. */
  ghost predicate Takes(S: System, S': System, s: nat, c: nat, b: nat) {
    |Queue(S', s, c, b)| < |Queue(S, s, c, b)|
  }

  /** What one step makes of an awaited copy, and of one that has landed. */
  ghost predicate AwaitMoved(cfg: Config, S: System, S': System, s: nat, c: nat, k: Key, low: nat, p: nat) {
    Awaited(cfg, S, s, c, k, low, p) ==>
      if !Takes(S, S', s, c, Part(cfg, k)) then Awaited(cfg, S', s, c, k, low, p)
      else if p == 0 then Landed(cfg, S', s, c, k, low)
      else Awaited(cfg, S', s, c, k, low, p - 1)
  }

  ghost predicate Moved(cfg: Config, S: System, S': System, s: nat, c: nat, k: Key, low: nat) {
    && c in S'.clients && ClockOf(S, s) <= ClockOf(S', s)
    && (Landed(cfg, S, s, c, k, low) ==> Landed(cfg, S', s, c, k, low))
    && forall p: nat :: AwaitMoved(cfg, S, S', s, c, k, low, p)
  }

  /** The channel was extended and the client kept its copy. */
  lemma {:induction false} ExtendedMoved(cfg: Config, S: System, S': System, s: nat, c: nat, k: Key, low: nat)
    requires SysShape(cfg, S) && SysShape(cfg, S') && Extended(S, S', s, c, Part(cfg, k), low)
    requires c in S'.clients && (Landed(cfg, S, s, c, k, low) ==> Holds(cfg, S'.clients[c], k, low))
    ensures Moved(cfg, S, S', s, c, k, low)
  {
    var b := Part(cfg, k);
    if Landed(cfg, S, s, c, k, low) {
      ExtendedStays(S, S', s, c, b, k, low, 0);
    }
    forall p: nat ensures AwaitMoved(cfg, S, S', s, c, k, low, p) {
      if Awaited(cfg, S, s, c, k, low, p) {
        ExtendedStays(S, S', s, c, b, k, low, p);
      }
    }
  }

  lemma {:induction false} ClientMoved(cfg: Config, S: System, S': System, s: nat, c: nat, k: Key, low: nat, i: nat, C': Client, step: Step)
    requires Inv(cfg, S) && SysShape(cfg, S') && ClientMoves(cfg, S, S', i, C', step) && NotEvicted(S, S', c, k) && c in S.clients
    ensures Moved(cfg, S, S', s, c, k, low)
  {
    if Landed(cfg, S, s, c, k, low) && i == c {
      PartsOf(cfg, S, c);
      MoveHolds(cfg, c, S.clients[c], C', step, k, low);
    }
    ExtendedMoved(cfg, S, S', s, c, k, low);
  }

  /** A message from elsewhere is no copy of `k`, or not for this client. */
  lemma {:induction false} OtherReceiveMoved(cfg: Config, S: System, S': System, s: nat, c: nat, k: Key, low: nat, s': nat, i: nat, j: nat, C': Client)
    requires Inv(cfg, S) && SysShape(cfg, S') && Receive(cfg, S, S', s', i, j, C') && s == ServerOf(cfg, k)
    requires !(s' == s && i == c && j == Part(cfg, k)) && c in S.clients
    ensures Moved(cfg, S, S', s, c, k, low)
  {
    OtherReceiveExtends(cfg, S, S', s, c, Part(cfg, k), s', i, j, C', low);
    if Landed(cfg, S, s, c, k, low) && i == c {
      HeadIsOwn(cfg, S, s', c, j);
      MessageHolds(cfg, c, S.clients[c], C', s', j, Down(S.servers[s'], c, j)[0], k, low);
    }
    ExtendedMoved(cfg, S, S', s, c, k, low);
  }

  /** The next message of the channel is handled. */
  lemma {:induction false} ReceiveMoved(cfg: Config, S: System, S': System, s: nat, c: nat, k: Key, low: nat, C': Client)
    requires SysShape(cfg, S) && SysShape(cfg, S') && Receive(cfg, S, S', s, c, Part(cfg, k), C')
    ensures Moved(cfg, S, S', s, c, k, low)
  {
    var b := Part(cfg, k);
    var q := Queue(S, s, c, b);
    assert Queue(S', s, c, b) == q[1..] && S'.clients[c] == C' && ClockOf(S', s) == ClockOf(S, s);
    if Landed(cfg, S, s, c, k, low) || Awaited(cfg, S, s, c, k, low, 0) {
      MessageHolds(cfg, c, S.clients[c], C', s, b, q[0], k, low);
    }
    assert NoneOlder(q, 0, k, low) ==> NoneOlder(q[1..], 0, k, low);
    forall p: nat ensures AwaitMoved(cfg, S, S', s, c, k, low, p) {
      assert forall i | 0 <= i < |q| - 1 :: q[1..][i] == q[i + 1];
    }
  }

  lemma {:induction false} ServerMoved(cfg: Config, S: System, S': System, s: nat, c: nat, k: Key, low: nat)
    requires SysShape(cfg, S) && SysShape(cfg, S') && c in S.clients && low <= ClockOf(S, s)
    requires (exists s', i, j :: Apply(cfg, S, S', s', i, j)) || (exists s', i, k' :: Reply(cfg, S, S', s', i, k'))
             || (exists s', down' :: PushAll(cfg, S, S', s', down'))
    ensures Moved(cfg, S, S', s, c, k, low)
  {
    var b := Part(cfg, k);
    if s': nat, i: nat, j: nat :| Apply(cfg, S, S', s', i, j) {
      ApplyExtends(cfg, S, S', s, c, b, s', i, j, low);
    } else if s': nat, i: nat, k' :| Reply(cfg, S, S', s', i, k') {
      ReplyExtends(cfg, S, S', s, c, b, s', i, k', low);
    } else {
      var s': nat, down' :| PushAll(cfg, S, S', s', down');
      PushExtends(cfg, S, S', s, c, b, s', down', low);
    }
    ExtendedMoved(cfg, S, S', s, c, k, low);
  }

  lemma {:induction false} NextMoved(cfg: Config, S: System, S': System, s: nat, c: nat, k: Key, low: nat)
    requires SysShape(cfg, S) && SysShape(cfg, S') && Inv(cfg, S) && Next(cfg, S, S') && NotEvicted(S, S', c, k)
    requires s == ServerOf(cfg, k) && c in S.clients && low <= ClockOf(S, s)
    ensures Moved(cfg, S, S', s, c, k, low)
  {
    if i: nat, C', step :| ClientMoves(cfg, S, S', i, C', step) {
      ClientMoved(cfg, S, S', s, c, k, low, i, C', step);
    } else if s': nat, i: nat, j: nat, C' :| Receive(cfg, S, S', s', i, j, C') {
      if s' == s && i == c && j == Part(cfg, k) {
        ReceiveMoved(cfg, S, S', s, c, k, low, C');
      } else {
        OtherReceiveMoved(cfg, S, S', s, c, k, low, s', i, j, C');
      }
    } else {
      ServerMoved(cfg, S, S', s, c, k, low);
    }
  }

  // ------------------------------------------------ runs

  /** How many messages are taken off the channel between states `a` and `z`. */
  ghost function Taken(run: seq<System>, s: nat, c: nat, b: nat, a: nat, z: nat): nat
    requires a <= z < |run|
  {
    if a == z then 0 else Taken(run, s, c, b, a, z - 1) + if Takes(run[z - 1], run[z], s, c, b) then 1 else 0
  }

  ghost predicate KeptAt(run: seq<System>, c: nat, k: Key, i: nat)
    requires i + 1 < |run|
  {
    NotEvicted(run[i], run[i + 1], c, k)
  }

  /** Row `k` is not evicted in any step from `a` up to `z`. */
  ghost predicate KeptIn(run: seq<System>, c: nat, k: Key, a: nat, z: nat)
    requires a <= z < |run|
  {
    forall i | a <= i < z :: KeptAt(run, c, k, i)
  }

  /** Where the reply sent in step `a` is by state `z`. */
  ghost predicate Tracked(cfg: Config, run: seq<System>, a: nat, z: nat, s: nat, c: nat, k: Key)
    requires a < z < |run|
  {
    var b, low := Part(cfg, k), ClockOf(run[a], s);
    var n, taken := |Queue(run[a], s, c, b)|, Taken(run, s, c, b, a + 1, z);
    && c in run[z].clients && low <= ClockOf(run[z], s)
    && if taken <= n then Awaited(cfg, run[z], s, c, k, low, n - taken) else Landed(cfg, run[z], s, c, k, low)
  }

  lemma {:induction false} ReplyTracked(cfg: Config, run: seq<System>, a: nat, s: nat, c: nat, k: Key)
    requires a + 1 < |run| && SysShape(cfg, run[a + 1]) && Reply(cfg, run[a], run[a + 1], s, c, k)
    ensures Tracked(cfg, run, a, a + 1, s, c, k)
  {
    var b, sv := Part(cfg, k), run[a].servers[s];
    assert Queue(run[a + 1], s, c, b) == Down(sv, c, b) + [RowMsgFor(cfg, run[a], sv, k)];
  }

  lemma {:induction false} RunShape(cfg: Config, run: seq<System>, i: nat)
    requires IsRun(cfg, run) && i < |run|
    ensures SysShape(cfg, run[i])
  {
    RunInv(cfg, run, i);
  }

  lemma {:induction false} MovedTracked(cfg: Config, run: seq<System>, a: nat, z: nat, s: nat, c: nat, k: Key)
    requires a < z < |run| - 1
    requires Tracked(cfg, run, a, z, s, c, k) && Moved(cfg, run[z], run[z + 1], s, c, k, ClockOf(run[a], s))
    ensures Tracked(cfg, run, a, z + 1, s, c, k)
  {
    var n, taken := |Queue(run[a], s, c, Part(cfg, k))|, Taken(run, s, c, Part(cfg, k), a + 1, z);
    assert Taken(run, s, c, Part(cfg, k), a + 1, z + 1) == taken + if Takes(run[z], run[z + 1], s, c, Part(cfg, k)) then 1 else 0;
    if taken <= n {
      assert AwaitMoved(cfg, run[z], run[z + 1], s, c, k, ClockOf(run[a], s), n - taken);
    }
  }

  ghost predicate MovedAt(cfg: Config, run: seq<System>, i: nat, s: nat, c: nat, k: Key, low: nat)
    requires i + 1 < |run|
  {
    c in run[i].clients && low <= ClockOf(run[i], s) ==> Moved(cfg, run[i], run[i + 1], s, c, k, low)
  }

  lemma {:induction false} RunMoved(cfg: Config, run: seq<System>, i: nat, s: nat, c: nat, k: Key, low: nat)
    requires IsRun(cfg, run) && i + 1 < |run| && KeptAt(run, c, k, i) && s == ServerOf(cfg, k)
    ensures MovedAt(cfg, run, i, s, c, k, low)
  {
    if c in run[i].clients && low <= ClockOf(run[i], s) {
      RunShape(cfg, run, i + 1);
      RunInv(cfg, run, i);
      NextMoved(cfg, run[i], run[i + 1], s, c, k, low);
    }
  }

  lemma {:induction false} TrackedOn(cfg: Config, run: seq<System>, a: nat, z: nat, s: nat, c: nat, k: Key)
    requires a < z < |run| && Tracked(cfg, run, a, a + 1, s, c, k)
    requires forall i | a < i < z :: MovedAt(cfg, run, i, s, c, k, ClockOf(run[a], s))
    ensures Tracked(cfg, run, a, z, s, c, k)
  {
    if z > a + 1 {
      TrackedOn(cfg, run, a, z - 1, s, c, k);
      assert MovedAt(cfg, run, z - 1, s, c, k, ClockOf(run[a], s));
      MovedTracked(cfg, run, a, z - 1, s, c, k);
    }
  }

  lemma {:induction false} RunTracked(cfg: Config, run: seq<System>, a: nat, z: nat, s: nat, c: nat, k: Key)
    requires IsRun(cfg, run) && a < z < |run| && Reply(cfg, run[a], run[a + 1], s, c, k) && KeptIn(run, c, k, a + 1, z)
    ensures Tracked(cfg, run, a, z, s, c, k)
  {
    RunShape(cfg, run, a + 1);
    ReplyTracked(cfg, run, a, s, c, k);
    forall i | a < i < z ensures MovedAt(cfg, run, i, s, c, k, ClockOf(run[a], s)) {
      assert KeptAt(run, c, k, i);
      RunMoved(cfg, run, i, s, c, k, ClockOf(run[a], s));
    }
    TrackedOn(cfg, run, a, z, s, c, k);
  }

  /** A served read succeeds: once the reply of step `a`, from a server at clock m, has been taken off its
      channel and the row is no longer being inserted, and unless the row was evicted in between, the row
      may be read under SSP by every thread at a clock up to m + staleness, and under SSPPush by every
      thread at a clock up to the system clock + staleness. */
  lemma {:induction false} ServedReadSucceeds(cfg: Config, run: seq<System>, a: nat, z: nat, s: nat, c: nat, k: Key, t: nat)
    requires IsRun(cfg, run) && a < z < |run| && Reply(cfg, run[a], run[a + 1], s, c, k) && KeptIn(run, c, k, a + 1, z)
    requires Taken(run, s, c, Part(cfg, k), a + 1, z) > |Down(run[a].servers[s], c, Part(cfg, k))|
    requires SysShape(cfg, run[z]) && c in run[z].clients && !BuildingKey(cfg, run[z].clients[c], k)
    requires t in run[z].clients[c].threads && !run[z].clients[c].threads[t].clocking
    requires run[z].clients[c].threads[t].ticked <=
             cfg.staleness(k.table) + if cfg.mode == Pull then run[a].servers[s].minClock else run[z].clients[c].sysClock
    ensures CanRead(cfg, run[z].clients[c], t, k)
    ensures cfg.mode == Pull ==> run[z].clients[c].cache[k].clock >= run[a].servers[s].minClock
  {
    RunTracked(cfg, run, a, z, s, c, k);
    assert Landed(cfg, run[z], s, c, k, run[a].servers[s].minClock);
  }

  /** Under SSPPush the system clock catches up: when every server has reached clock m and pushed it, every
      channel to the client is empty, and the client has no system clock step left to take, every cached
      row may be read by every thread at a clock up to m + staleness. */
  lemma {:induction false} PushedReadSucceeds(cfg: Config, run: seq<System>, z: nat, c: nat, k: Key, t: nat, m: nat)
    requires IsRun(cfg, run) && z < |run| && cfg.mode == Push && c in run[z].clients && SysShape(cfg, run[z])
    requires forall s | 0 <= s < |run[z].servers| :: run[z].servers[s].minClock >= m && !run[z].servers[s].pushDue
    requires forall s, b | 0 <= s < |run[z].servers| && 0 <= b < cfg.numBgs :: Down(run[z].servers[s], c, b) == []
    requires forall C' | AdvanceSystemClock(cfg, run[z].clients[c], C') :: C' == run[z].clients[c]
    requires t in run[z].clients[c].threads && !run[z].clients[c].threads[t].clocking && k in run[z].clients[c].cache
    requires run[z].clients[c].threads[t].ticked <= m + cfg.staleness(k.table)
    ensures CanRead(cfg, run[z].clients[c], t, k)
  {
    RunPush(cfg, run, z);
    var C := run[z].clients[c];
    forall s, b | 0 <= s < |run[z].servers| && 0 <= b < cfg.numBgs ensures C.bgs[b].seen[s] >= m {
      assert PairOk(cfg, run[z], s, c, b);
    }
    if C.sysClock < m {
      var C' := C.(sysClock := C.sysClock + 1);
      assert AdvanceSystemClock(cfg, C, C');
    }
  }
}
