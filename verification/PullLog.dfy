/** SSPRowRequestOpLogMgr: pending row requests of one bg thread and the sent oplogs that
    replies to them may still need.

    Maps are keyed by 32-bit versions. `current` is the bg's true version: the next one it will
    ship. `versions` holds the true versions of all pending requests. */
module PullLog {
  import opened PsTypes
  import opened VectorClocks
  import opened ServerVersions
  import opened PendingRequests

  /** The 2^32 versions up to and including `current`: each 32-bit number names one of them. */
  ghost predicate Near(v: int, current: int) {
    current - TwoTo32 < v <= current
  }

  ghost function Named(x: int, current: int): int {
    current - U32(current - x)
  }

  lemma NamedIs(x: int, current: int)
    requires 0 <= x < TwoTo32
    ensures Near(Named(x, current), current) && U32(Named(x, current)) == x
  {
  }

  lemma NearNames(v: int, w: int, current: int)
    requires Near(v, current) && Near(w, current)
    ensures U32(v) == U32(w) <==> v == w
  {
  }

  /** What is counted, and whether an oplog is saved, under version `v`. */
  ghost function Count(counts: map<int, int>, v: int): int {
    if U32(v) in counts then counts[U32(v)] else 0
  }

  ghost predicate Saved<T>(logs: map<int, T>, v: int) {
    U32(v) in logs
  }

  /** Pending requests were made at versions already shipped, and not 2^32 versions ago. */
  ghost predicate Window(versions: multiset<int>, current: int) {
    current >= 0 && forall v | v in versions :: -1 <= v < current && Near(v, current)
  }

  /** The count of a version is the number of pending requests of that version. */
  ghost predicate CountsOk(counts: map<int, int>, versions: multiset<int>, current: int) {
    && (forall x | x in counts :: 0 <= x < TwoTo32 && counts[x] > 0)
    && (forall v {:trigger Count(counts, v)} | Near(v, current) :: Count(counts, v) == versions[v])
  }

  /** Version `v` is shipped, and some pending request is older. */
  ghost predicate Needed(v: int, versions: multiset<int>, current: int) {
    v < current && exists p :: p in versions && p < v
  }

  /** The saved oplogs are exactly the needed ones. */
  ghost predicate LogsOk<T>(logs: map<int, T>, versions: multiset<int>, current: int, history: seq<T>) {
    && |history| == current
    && (forall x | x in logs :: 0 <= x < TwoTo32)
    && (forall v {:trigger Saved(logs, v)} | Near(v, current) :: Saved(logs, v) <==> Needed(v, versions, current))
    && (forall v {:trigger Saved(logs, v)} | Near(v, current) && Saved(logs, v) :: 0 <= v < current && logs[U32(v)] == history[v])
  }

  /** A reply that reflects version `t` can be brought up to date. */
  ghost predicate Replayable(t: int, versions: multiset<int>, current: int) {
    t + 1 == current || exists p :: p in versions && p <= t
  }

  /** Every oplog after `t` is saved if and only if some pending request covers `t`. */
  lemma ReplayableIff<T>(logs: map<int, T>, versions: multiset<int>, current: int, history: seq<T>, t: int)
    requires LogsOk(logs, versions, current, history) && Near(t, current) && t < current
    ensures Replayable(t, versions, current) <==> forall v | t < v < current :: Saved(logs, v)
  {
    if Replayable(t, versions, current) && t + 1 != current {
      var p :| p in versions && p <= t;
      forall v | t < v < current ensures Saved(logs, v) {
        assert Near(v, current) && Needed(v, versions, current) && (Saved(logs, v) <==> Needed(v, versions, current));
      }
    } else if t + 1 < current {
      assert Near(t + 1, current) && (Saved(logs, t + 1) <==> Needed(t + 1, versions, current));
    }
  }

  /** `versions` are the versions of the pending requests, with multiplicity. */
  ghost predicate Tallied(pending: Pending, versions: multiset<int>) {
    forall v {:trigger Total(pending, v)} :: Total(pending, v) == versions[v]
  }

  class PullLogMgr<T> {
    var pending: Pending
    var counts: map<int, int>
    var logs: map<int, T>
    var current: nat

    ghost var versions: multiset<int>
    ghost var history: seq<T>
    ghost var asked: set<Ask>

    ghost predicate LedgerOk()
      reads this
    {
      Window(versions, current) && CountsOk(counts, versions, current) && LogsOk(logs, versions, current, history)
    }

    ghost predicate Valid()
      reads this
    {
      LedgerOk() && PendingOk(pending, asked) && Tallied(pending, versions)
    }

    constructor ()
      ensures Valid() && pending == map[] && current == 0 && history == [] && asked == {}
    {
      pending, counts, logs, current := map[], map[], map[], 0;
      versions, history, asked := multiset{}, [], {};
    }

    // ---------------------------------------------- versions and saved oplogs

    /** One more request of the last shipped version. */
    method CountUp()
      requires LedgerOk()
      modifies this`counts, this`versions
      ensures LedgerOk() && versions == old(versions) + multiset{current - 1}
    {
      var v := U32(current - 1);
      ghost var was := versions;
      ghost var before := counts;
      counts := counts[v := (if v in counts then counts[v] else 0) + 1];
      versions := versions + multiset{current - 1};
      forall w | Near(w, current) ensures Count(counts, w) == versions[w] {
        NearNames(w, current - 1, current);
        assert Count(before, w) == was[w];
      }
      NewestNeedsNothing(was, current);
    }

    /** CleanVersionOpLogs: `v` was a pending version and no longer is. */
    method CleanVersionOpLogs(v: int)
      requires Window(versions + multiset{v}, current) && CountsOk(counts, versions, current) && v !in versions
      requires LogsOk(logs, versions + multiset{v}, current, history)
      modifies this`logs
      ensures LedgerOk()
    {
      assert v in versions + multiset{v};
      NearNames(v + 1, current, current);
      assert Saved(logs, v) <==> Needed(v, versions + multiset{v}, current);
      if U32(v + 1) == U32(current) || U32(v) in logs {
        assert v + 1 == current || Needed(v, versions + multiset{v}, current);
        SameNeeds(versions, v, current);
        return;
      }
      SpanFrom(logs, versions, v, current, history);
      forall p | p in versions ensures p < current {
        assert p in versions + multiset{v};
      }
      var w := v;
      while true
        invariant v <= w < current
        invariant forall p | p in versions :: w < p < current
        invariant Span(logs, w, current, history)
        decreases current - w
      {
        SpanShrinks(logs, w, current, history);
        logs := logs - {U32(w + 1)};
        w := w + 1;
        NearNames(w, current, current);
        assert Count(counts, w) == versions[w];
        if U32(w) in counts || U32(w) == U32(current) {
          break;
        }
      }
      SpanIsNeeded(logs, versions, w, current, history);
    }

    /** One request of version `v` is gone. */
    method CountDown(v: int)
      requires LedgerOk() && v in versions
      modifies this`counts, this`versions, this`logs
      ensures LedgerOk() && versions == old(versions) - multiset{v}
    {
      ghost var was := versions;
      versions := versions - multiset{v};
      assert was == versions + multiset{v};
      assert Near(v, current) && Count(counts, v) == was[v];
      CountsDrop(counts, was, versions, v, current);
      counts := counts[U32(v) := counts[U32(v)] - 1];
      if counts[U32(v)] == 0 {
        counts := counts - {U32(v)};
        CleanVersionOpLogs(v);
      } else {
        SameMembers(was, versions, current);
      }
    }

    /** AddOpLog and the version step of HandleClockMsg: the oplog is saved exactly when a
        request is pending. Saving fails fatally if its number is taken, which cannot be. */
    method AddOpLog(oplog: T) returns (tracked: bool)
      requires Valid() && Window(versions, current + 1)
      modifies this`logs, this`current, this`history
      ensures Valid() && current == old(current) + 1 && history == old(history) + [oplog]
      ensures tracked <==> exists key :: key in pending
      ensures U32(old(current)) !in old(logs)
    {
      assert Near(current, current) && !Saved(logs, current);
      PendingIff(pending, versions, asked);
      CountsIff(counts, versions, current);
      tracked := |counts| > 0;
      ShippedCounts(counts, versions, current);
      ShippedLogs(logs, versions, current, history, oplog);
      if tracked {
        assert counts != map[];
        logs := logs[U32(current) := oplog];
      } else {
        assert counts == map[];
      }
      current := current + 1;
      history := history + [oplog];
    }

    // ---------------------------------------------- requests

    /** A new request takes its place in line and is counted. */
    method JoinLine(key: Key, r: RowRequest) returns (p: nat)
      requires LedgerOk() && Tallied(pending, versions) && r.version == current - 1
      modifies this`pending, this`counts, this`versions
      ensures LedgerOk() && Tallied(pending, versions)
      ensures p <= |ListOf(old(pending), key)| && pending == old(pending)[key := Inserted(ListOf(old(pending), key), p, r)]
      ensures p > 0 ==> ListOf(old(pending), key)[p - 1].clock <= r.clock
      ensures forall i | p <= i < |ListOf(old(pending), key)| :: r.clock < ListOf(old(pending), key)[i].clock
    {
      var list := ListOf(pending, key);
      p := FindSlot(list, r.clock);
      TallyInserted(pending, versions, key, p, r);
      pending := pending[key := Inserted(list, p, r)];
      CountUp();
    }

    /** AddRowRequest: in line by clock, and sent on unless someone asks for as little. */
    method AddRowRequest(key: Key, thread: int, clock: nat) returns (sent: bool)
      requires Valid()
      modifies this`pending, this`counts, this`versions, this`asked
      ensures Valid()
      ensures sent <==> forall r | r in ListOf(old(pending), key) :: clock < r.clock
      ensures Joined(ListOf(old(pending), key), ListOf(pending, key), thread, clock, current - 1)
      ensures pending == old(pending)[key := ListOf(pending, key)]
      ensures asked == old(asked) + if sent then {Ask(key, clock)} else {}
    {
      var r := RowRequest(thread, clock, current - 1, true);
      ghost var was := pending;
      var p := JoinLine(key, r);
      sent := p == 0;
      AddedOk(was, key, p, r, asked);
      asked := asked + if sent then {Ask(key, clock)} else {};
    }

    /** One turn of the loop of InformReply: the first in line leaves. */
    method PopFront(key: Key) returns (thread: int)
      requires LedgerOk() && Tallied(pending, versions) && key in pending && pending[key] != []
      modifies this`pending, this`counts, this`versions, this`logs
      ensures LedgerOk() && Tallied(pending, versions)
      ensures pending == old(pending)[key := old(pending)[key][1..]] && thread == old(pending)[key][0].thread
    {
      var r := pending[key][0];
      TallyPopped(pending, versions, key);
      pending := pending[key := pending[key][1..]];
      CountDown(r.version);
      thread := r.thread;
    }

    /** The loop of InformReply: requests with clock at most `clock` leave from the front. */
    method ReleaseDue(key: Key, clock: int) returns (threads: seq<int>)
      requires LedgerOk() && Tallied(pending, versions) && key in pending
      modifies this`pending, this`counts, this`versions, this`logs
      ensures LedgerOk() && Tallied(pending, versions)
      ensures var list := old(pending)[key];
        var n := Due(list, clock);
        threads == Threads(list[..n]) && pending == old(pending)[key := list[n..]]
    {
      threads := [];
      ghost var list := pending[key];
      ghost var m := 0;
      ghost var was := pending;
      assert list[0..] == list && pending == pending[key := list];
      while pending[key] != [] && pending[key][0].clock <= clock
        invariant LedgerOk() && Tallied(pending, versions)
        invariant 0 <= m <= |list| && pending == was[key := list[m..]] && threads == Threads(list[..m])
        invariant forall i | 0 <= i < m :: list[i].clock <= clock
        decreases |list| - m
      {
        var thread := PopFront(key);
        threads := threads + [thread];
        m := m + 1;
        assert list[m - 1..][1..] == list[m..] && list[..m] == list[..m - 1] + [list[m - 1]];
      }
      DueFrom(list, clock, m);
    }

    /** The first in line is asked for now, so from now on it waits for the present version. */
    method ResendFront(key: Key)
      requires LedgerOk() && Tallied(pending, versions) && key in pending && pending[key] != [] && !pending[key][0].sent
      modifies this`pending, this`counts, this`versions, this`logs
      ensures LedgerOk() && Tallied(pending, versions)
      ensures pending == old(pending)[key := Resent(old(pending)[key], current - 1)]
    {
      var v := pending[key][0].version;
      TallyResent(pending, versions, key, current - 1);
      pending := pending[key := Resent(pending[key], current - 1)];
      CountUp();
      CountDown(v);
    }

    /** The line for one row after a reply: the due ones leave, and the next is sent if need be. */
    method ServeLine(key: Key, clock: int) returns (threads: seq<int>, resend: int)
      requires LedgerOk() && Tallied(pending, versions)
      modifies this`pending, this`counts, this`versions, this`logs
      ensures LedgerOk() && Tallied(pending, versions)
      ensures pending == Remaining(old(pending), key, clock, current - 1)
      ensures threads == Released(old(pending), key, clock) && resend == ToResend(old(pending), key, clock)
    {
      threads, resend := [], -1;
      if key in pending {
        threads := ReleaseDue(key, clock);
        if pending[key] == [] {
          TallyErased(pending, versions, key);
          pending := pending - {key};
        } else if !pending[key][0].sent {
          resend := pending[key][0].clock;
          ResendFront(key);
        }
      }
    }

    /** InformReply: a reply at `clock`, to the request for clock `c`, releases exactly the
        requests with clock at most `clock`, each once and in order, and asks again for the next
        in line if nobody has. */
    method InformReply(key: Key, clock: int, ghost c: nat) returns (threads: seq<int>, resend: int)
      requires Valid() && c <= clock
      modifies this`pending, this`counts, this`versions, this`logs, this`asked
      ensures Valid()
      ensures threads == Released(old(pending), key, clock) && resend == ToResend(old(pending), key, clock)
      ensures pending == Remaining(old(pending), key, clock, current - 1)
      ensures ServedUpTo(ListOf(old(pending), key), ListOf(pending, key), threads, resend, clock, current - 1)
      ensures pending - {key} == old(pending) - {key}
      ensures asked == StillAsked(old(asked), key, c, resend)
    {
      RepliedOk(pending, key, c, clock, current - 1, asked);
      threads, resend := ServeLine(key, clock);
      asked := StillAsked(asked, key, c, resend);
    }

    // ---------------------------------------------- replay

    /** ApplyOldOpLogsToRowData for a reply that reflects version `t` and that some pending request
        covers: no lookup fails, and the result is complete exactly when the versions after `t` have
        not wrapped past the present one. */
    method OpLogsAfter(t: int) returns (oplogs: seq<T>)
      requires Valid() && -1 <= t < current && Near(t, current) && Replayable(t, versions, current)
      ensures oplogs == history[t + 1..] <==> U32(t + 1) <= U32(current)
      ensures U32(t + 1) > U32(current) ==> oplogs == []
    {
      oplogs := [];
      NearNames(t + 1, current, current);
      if U32(t + 1) < U32(current) {
        ReplayableIff(logs, versions, current, history, t);
        oplogs := Walk(t);
      } else {
        assert U32(t + 1) == U32(current) <==> |history[t + 1..]| == 0;
      }
    }

    /** OpLogIterInit, then OpLogIterNext until it has passed the last version shipped. */
    method Walk(t: int) returns (oplogs: seq<T>)
      requires LogsOk(logs, versions, current, history) && -1 <= t < current && Near(t, current) && U32(t + 1) < U32(current)
      requires forall v | t < v < current :: Saved(logs, v)
      ensures oplogs == history[t + 1..]
    {
      oplogs := [];
      var next, last := U32(t + 1), U32(current) - 1;
      ghost var n := t + 1;
      Placed(t + 1, current, current);
      while next <= last
        invariant t < n <= current && next == U32(t + 1) + (n - t - 1)
        invariant oplogs == history[t + 1..n]
        decreases current - n
      {
        Placed(t + 1, current, n);
        assert Near(n, current) && Saved(logs, n);
        oplogs := oplogs + [logs[next]];
        next, n := next + 1, n + 1;
      }
    }
  }

  /** The saved oplogs are those after `w`. */
  ghost predicate Span<T>(logs: map<int, T>, w: int, current: int, history: seq<T>) {
    && |history| == current
    && (forall x | x in logs :: 0 <= x < TwoTo32)
    && (forall i {:trigger Saved(logs, i)} | Near(i, current) :: Saved(logs, i) <==> w < i < current)
    && (forall i {:trigger Saved(logs, i)} | Near(i, current) && Saved(logs, i) :: 0 <= i < current && logs[U32(i)] == history[i])
  }

  /** With `v` gone and nothing older pending, the saved oplogs are those after `v`. */
  lemma SpanFrom<T>(logs: map<int, T>, versions: multiset<int>, v: int, current: int, history: seq<T>)
    requires LogsOk(logs, versions + multiset{v}, current, history) && Near(v, current) && v < current && !Saved(logs, v)
    requires v !in versions
    ensures Span(logs, v, current, history)
    ensures forall p | p in versions :: v < p
  {
    var all := versions + multiset{v};
    assert !Needed(v, all, current);
    forall p | p in versions ensures v < p {
      assert p in all;
    }
    forall i | Near(i, current) ensures Saved(logs, i) <==> v < i < current {
      assert v in all;
      if Needed(i, all, current) {
        var p :| p in all && p < i;
      }
    }
  }

  lemma SpanShrinks<T>(logs: map<int, T>, w: int, current: int, history: seq<T>)
    requires Span(logs, w, current, history) && Near(w, current) && w < current
    ensures Span(logs - {U32(w + 1)}, w + 1, current, history)
  {
    var logs' := logs - {U32(w + 1)};
    forall i | Near(i, current) ensures Saved(logs', i) <==> Saved(logs, i) && i != w + 1 {
      NearNames(i, w + 1, current);
    }
  }

  lemma SpanIsNeeded<T>(logs: map<int, T>, versions: multiset<int>, w: int, current: int, history: seq<T>)
    requires Span(logs, w, current, history) && (forall p | p in versions :: w <= p) && (w in versions || w == current)
    ensures LogsOk(logs, versions, current, history)
  {
    forall i | Near(i, current) ensures Saved(logs, i) <==> Needed(i, versions, current) {
      if w < i < current {
        assert w in versions && w < i;
      }
    }
  }

  /** A request of the newest shipped version needs no saved oplog. */
  lemma NewestNeedsNothing(versions: multiset<int>, current: int)
    ensures forall v :: Needed(v, versions + multiset{current - 1}, current) <==> Needed(v, versions, current)
  {
    forall v ensures Needed(v, versions + multiset{current - 1}, current) <==> Needed(v, versions, current) {
      if Needed(v, versions + multiset{current - 1}, current) {
        var p :| p in versions + multiset{current - 1} && p < v;
        assert p in versions;
      }
      if Needed(v, versions, current) {
        var p :| p in versions && p < v;
        assert p in versions + multiset{current - 1};
      }
    }
  }

  /** Dropping `v` changes nothing if it is the newest version or an older request remains. */
  lemma SameNeeds(versions: multiset<int>, v: int, current: int)
    requires v + 1 == current || Needed(v, versions + multiset{v}, current)
    ensures forall i :: Needed(i, versions + multiset{v}, current) <==> Needed(i, versions, current)
  {
    if v + 1 == current {
      NewestNeedsNothing(versions, current);
    } else {
      var q :| q in versions + multiset{v} && q < v;
      assert q in versions;
      forall i ensures Needed(i, versions + multiset{v}, current) <==> Needed(i, versions, current) {
        if Needed(i, versions + multiset{v}, current) {
          var p :| p in versions + multiset{v} && p < i;
          assert p in versions || (q in versions && q < i);
        }
        if Needed(i, versions, current) {
          var p :| p in versions && p < i;
          assert p in versions + multiset{v};
        }
      }
    }
  }

  lemma SameMembers(a: multiset<int>, b: multiset<int>, current: int)
    requires forall p :: p in a <==> p in b
    ensures forall i :: Needed(i, a, current) <==> Needed(i, b, current)
  {
    forall i ensures Needed(i, a, current) <==> Needed(i, b, current) {
      if Needed(i, a, current) {
        var p :| p in a && p < i;
        assert p in b;
      }
      if Needed(i, b, current) {
        var p :| p in b && p < i;
        assert p in a;
      }
    }
  }

  lemma PendingIff(pending: Pending, versions: multiset<int>, asked: set<Ask>)
    requires PendingOk(pending, asked) && Tallied(pending, versions)
    ensures (exists key :: key in pending) <==> exists v :: v in versions
  {
    if key :| key in pending {
      assert ListOk(key, pending[key], asked);
      TallyFront(pending, versions, key);
    } else {
      assert pending == map[];
      forall v ensures v !in versions {
        assert Total(pending, v) == 0;
      }
    }
  }

  lemma CountsIff(counts: map<int, int>, versions: multiset<int>, current: int)
    requires CountsOk(counts, versions, current) && Window(versions, current)
    ensures counts != map[] <==> exists v :: v in versions
  {
    if v :| v in versions {
      assert Near(v, current) && Count(counts, v) == versions[v];
    }
    if counts != map[] {
      NonEmpty(counts.Keys);
      var x :| x in counts.Keys;
      NamedIs(x, current);
      assert Count(counts, Named(x, current)) == versions[Named(x, current)];
    }
  }

  /** Counting one request down, and forgetting a version whose count reaches zero. */
  lemma CountsDrop(counts: map<int, int>, was: multiset<int>, versions: multiset<int>, v: int, current: int)
    requires CountsOk(counts, was, current) && Near(v, current) && v in was && versions == was - multiset{v}
    ensures U32(v) in counts && counts[U32(v)] == versions[v] + 1
    ensures var less := counts[U32(v) := counts[U32(v)] - 1];
      CountsOk(if less[U32(v)] == 0 then less - {U32(v)} else less, versions, current)
  {
    assert Count(counts, v) == was[v];
    var less := counts[U32(v) := counts[U32(v)] - 1];
    var counts' := if less[U32(v)] == 0 then less - {U32(v)} else less;
    forall w | Near(w, current) ensures Count(counts', w) == versions[w] {
      NearNames(w, v, current);
      assert Count(counts, w) == was[w];
    }
  }

  lemma ShippedCounts(counts: map<int, int>, versions: multiset<int>, current: int)
    requires CountsOk(counts, versions, current) && Window(versions, current) && Window(versions, current + 1)
    ensures CountsOk(counts, versions, current + 1)
  {
    forall v | Near(v, current + 1) ensures Count(counts, v) == versions[v] {
      var w := if v == current + 1 then v - TwoTo32 else v;
      assert U32(w) == U32(v) && Near(w, current);
      assert Count(counts, w) == versions[w];
    }
  }

  lemma ShippedLogs<T>(logs: map<int, T>, versions: multiset<int>, current: int, history: seq<T>, oplog: T)
    requires LogsOk(logs, versions, current, history) && Window(versions, current) && Window(versions, current + 1)
    ensures LogsOk(if exists p :: p in versions then logs[U32(current) := oplog] else logs, versions, current + 1, history + [oplog])
  {
    var logs' := if exists p :: p in versions then logs[U32(current) := oplog] else logs;
    assert Near(current, current) && !Needed(current, versions, current);
    forall v | Near(v, current + 1) ensures
        && (Saved(logs', v) <==> Needed(v, versions, current + 1))
        && (Saved(logs', v) ==> 0 <= v < current + 1 && logs'[U32(v)] == (history + [oplog])[v])
    {
      NearNames(v, current, current + 1);
      assert v != current ==> (Saved(logs', v) <==> Saved(logs, v));
      if v == current + 1 {
        var w := v - TwoTo32;
        assert U32(w) == U32(v) && Near(w, current);
        assert Saved(logs, v) <==> Saved(logs, w);
        assert !Needed(w, versions, current);
      } else if v < current {
        assert Near(v, current) && (Needed(v, versions, current + 1) <==> Needed(v, versions, current));
      }
    }
  }

  lemma TallyInserted(pending: Pending, versions: multiset<int>, key: Key, p: nat, r: RowRequest)
    requires Tallied(pending, versions) && p <= |ListOf(pending, key)|
    ensures Tallied(pending[key := Inserted(ListOf(pending, key), p, r)], versions + multiset{r.version})
  {
    var list := ListOf(pending, key);
    forall v ensures Total(pending[key := Inserted(list, p, r)], v) == (versions + multiset{r.version})[v] {
      TotalWith(pending, key, Inserted(list, p, r), v);
      CountInserted(list, p, r, v);
    }
  }

  lemma TallyFront(pending: Pending, versions: multiset<int>, key: Key)
    requires Tallied(pending, versions) && key in pending && pending[key] != []
    ensures pending[key][0].version in versions
  {
    var v := pending[key][0].version;
    TotalWithout(pending, key, v);
    assert Total(pending, v) == versions[v];
  }

  lemma TallyPopped(pending: Pending, versions: multiset<int>, key: Key)
    requires Tallied(pending, versions) && key in pending && pending[key] != []
    ensures pending[key][0].version in versions
    ensures Tallied(pending[key := pending[key][1..]], versions - multiset{pending[key][0].version})
  {
    TallyFront(pending, versions, key);
    var list := pending[key];
    forall v ensures Total(pending[key := list[1..]], v) == (versions - multiset{list[0].version})[v] {
      TotalWith(pending, key, list[1..], v);
      assert Total(pending, v) == versions[v];
    }
  }

  lemma TallyResent(pending: Pending, versions: multiset<int>, key: Key, version: int)
    requires Tallied(pending, versions) && key in pending && pending[key] != [] && !pending[key][0].sent
    ensures pending[key][0].version in versions
    ensures Tallied(pending[key := Resent(pending[key], version)], versions + multiset{version} - multiset{pending[key][0].version})
  {
    TallyFront(pending, versions, key);
    var list := pending[key];
    var list' := Resent(list, version);
    assert list'[1..] == list[1..];
    forall v ensures Total(pending[key := list'], v) == (versions + multiset{version} - multiset{list[0].version})[v] {
      TotalWith(pending, key, list', v);
      assert Total(pending, v) == versions[v];
    }
  }

  lemma TallyErased(pending: Pending, versions: multiset<int>, key: Key)
    requires Tallied(pending, versions) && key in pending && pending[key] == []
    ensures Tallied(pending - {key}, versions)
  {
    forall v ensures Total(pending - {key}, v) == versions[v] {
      TotalWithout(pending, key, v);
      assert Total(pending, v) == versions[v];
    }
  }

  /** A request for clock 1, one shipment, and a request for clock 0: both are sent. */
  method TwoAsked(key: Key, oplog: int) returns (mgr: PullLogMgr<int>)
    ensures fresh(mgr) && mgr.Valid() && mgr.current == 1 && mgr.pending.Keys == {key} && mgr.asked == {Ask(key, 1), Ask(key, 0)}
    ensures |mgr.pending[key]| == 2 && forall r | r in mgr.pending[key] :: r.clock <= 1
  {
    mgr := new PullLogMgr();
    var sent := mgr.AddRowRequest(key, 0, 1);
    assert |ListOf(mgr.pending, key)| == 1 && ListOf(mgr.pending, key)[0].clock == 1;
    var tracked := mgr.AddOpLog(oplog);
    sent := mgr.AddRowRequest(key, 1, 0);
  }

  /** At staleness 1, thread 0, at its clock 2, asks for clock 1 before version 0 is shipped, and
      thread 1, at its clock 1, asks for clock 0 after it. Version 0 ends the first clock, so the server
      then answers the first request, at clock 1. That reply serves both threads; the bg ships version 1,
      and the reply to the request for clock 0, which reflects version 0, finds nobody pending and version
      1 gone. */
  method OvertakenReply(key: Key, one: int, two: int) returns (mgr: PullLogMgr<int>)
    ensures mgr.Valid() && mgr.current == 2 && mgr.pending == map[] && mgr.asked == {Ask(key, 0)}
    ensures !Replayable(0, mgr.versions, mgr.current) && U32(1) !in mgr.logs
  {
    mgr := TwoAsked(key, one);
    ghost var was := mgr.pending;
    assert ListOk(key, was[key], mgr.asked);
    var threads, resend := mgr.InformReply(key, 1, 1);
    assert was[key][1] in was[key];
    DueSplits(was[key], 1, 1);
    assert mgr.pending == was - {key} == map[];
    var tracked := mgr.AddOpLog(two);
    forall p ensures p !in mgr.versions {
      assert Total(mgr.pending, p) == 0;
    }
    assert Saved(mgr.logs, 1) <==> Needed(1, mgr.versions, 2);
  }
}
