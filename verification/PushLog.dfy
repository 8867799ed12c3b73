/** SSPPushRowRequestOpLogMgr: sent oplogs are kept until every server has acknowledged them.

    `history[v]` is the oplog of true version v. What is kept is a run of consecutive versions,
    stored under their 32-bit names. */
module PushLog {
  import opened PsTypes
  import opened ServerVersions
  import opened PendingRequests

  datatype Entry<+T> = Entry(version: int, oplog: T)

  /** `list` is the run of versions after `low` up to the newest, each with its oplog. */
  ghost predicate IsRun<T>(list: seq<Entry<T>>, low: int, history: seq<T>) {
    && -1 <= low < |history| && |list| == |history| - 1 - low
    && forall i | 0 <= i < |list| :: list[i] == Entry(U32(low + 1 + i), history[low + 1 + i])
  }

  /** The test of the pruning loop on the front of the list. */
  predicate Prunable(front: int, minVersion: int, upper: int) {
    if minVersion > upper then front > upper && front <= minVersion
    else front > upper || front <= minVersion
  }

  /** It is the comparison of true versions. */
  lemma PrunableIff(low: int, high: int, front: int, least: int)
    requires low <= front <= high < low + TwoTo32 && low <= least <= high
    ensures Prunable(U32(front), U32(least), U32(high)) <==> front <= least
  {
    Placed(low, high, front);
    Placed(low, high, least);
    Placed(low, high, high);
  }

  lemma RunTail<T>(list: seq<Entry<T>>, low: int, history: seq<T>)
    requires IsRun(list, low, history) && list != []
    ensures IsRun(list[1..], low + 1, history)
  {
  }

  class PushLogMgr<T> {
    const versions: ServerVersionMgr
    var list: seq<Entry<T>>
    var pending: Pending

    ghost var history: seq<T>
    ghost var asked: set<Ask>

    /** Kept: exactly what is sent and not yet acknowledged by all servers. */
    ghost predicate Valid()
      reads this, versions
    {
      && versions.Valid() && versions.Close() && versions.versions != map[]
      && versions.trueUpper == |history| - 1
      && IsRun(list, versions.trueMin, history)
    }

    /** Lines in order, each with its first request outstanding. */
    ghost predicate LinesOk()
      reads this
    {
      PendingOk(pending, asked)
    }

    constructor (servers: seq<int>)
      requires servers != []
      ensures Valid() && LinesOk() && history == [] && pending == map[] && fresh(versions)
      ensures forall s :: s in versions.versions <==> s in servers
    {
      versions := new ServerVersionMgr(servers);
      list, history := [], [];
      pending, asked := map[], {};
      new;
      ghost var s := servers[0];
      assert s in servers && s in versions.versions;
    }

    /** AddOpLog, then InformVersionInc: version |history| is sent and kept. */
    method AddOpLog(version: int, oplog: T)
      requires version == U32(|history|)
      requires Valid() && versions.trueUpper + 1 - versions.trueMin < TwoTo32
      modifies this`list, this`history, versions`upper, versions`trueUpper
      ensures Valid() && history == old(history) + [oplog]
      ensures versions.trueMin == old(versions.trueMin)
    {
      list := list + [Entry(version, oplog)];
      history := history + [oplog];
      versions.IncVersionUpperBound();
    }

    /** The pruning loop. */
    method Prune(ghost low: int)
      requires versions.Valid() && versions.Close() && versions.trueUpper == |history| - 1
      requires IsRun(list, low, history) && low <= versions.trueMin && versions.trueUpper - low < TwoTo32
      modifies this`list
      ensures IsRun(list, versions.trueMin, history)
    {
      var least, upper := versions.minVersion, versions.upper;
      ghost var at := low;
      while list != [] && Prunable(list[0].version, least, upper)
        invariant low <= at <= versions.trueMin && IsRun(list, at, history)
        decreases |list|
      {
        PrunableIff(low, versions.trueUpper, at + 1, versions.trueMin);
        RunTail(list, at, history);
        list := list[1..];
        at := at + 1;
      }
      if list != [] {
        PrunableIff(low, versions.trueUpper, at + 1, versions.trueMin);
      }
    }

    /** ServerAcknowledgeVersion: server `server` has applied true version `t`. */
    method ServerAcknowledgeVersion(server: int, version: int, ghost t: int)
      requires Valid() && server in versions.versions && version == U32(t)
      requires versions.trueVersions[server] <= t < |history|
      modifies this`list, versions
      ensures Valid() && versions.trueVersions == old(versions.trueVersions)[server := t]
      ensures list == old(list)[versions.trueMin - old(versions.trueMin)..]
    {
      ghost var low := versions.trueMin;
      ghost var was := list;
      var grew := versions.SetServerVersion(server, version, t);
      if grew {
        Prune(low);
      }
      RunSuffix(was, list, low, versions.trueMin, history);
    }

    /** OpLogIterInit and OpLogIterNext as ApplyOldOpLogsToRowData drives them, for a row that
        reflects version `t`: neither fatal check can fail, and the result is complete exactly
        when the versions after `t` have not wrapped past the present one. */
    method OpLogsAfter(version: int, current: int, ghost t: int) returns (oplogs: seq<T>)
      requires Valid() && versions.trueMin <= t < |history| && version == U32(t) && current == U32(|history|)
      ensures oplogs == history[t + 1..] <==> U32(t + 1) <= U32(|history|)
      ensures U32(t + 1) > U32(|history|) ==> oplogs == []
    {
      oplogs := [];
      U32Next(t);
      WindowNames(t + 1, t + 1, |history|);
      var start := U32(version + 1);
      if start < current {
        oplogs := Walk(start, current - 1, t);
      } else {
        assert start == current <==> |history[t + 1..]| == 0;
      }
    }

    /** OpLogIterInit, then OpLogIterNext until it has passed `last`. */
    method Walk(start: int, last: int, ghost t: int) returns (oplogs: seq<T>)
      requires Valid() && versions.trueMin <= t < |history|
      requires start == U32(t + 1) <= last && last + 1 == U32(|history|)
      ensures oplogs == history[t + 1..]
    {
      ghost var low := versions.trueMin;
      Placed(t + 1, |history|, |history|);
      var pos := FindVersion(start, t - low);
      oplogs := [list[pos].oplog];
      var next := start + 1;
      ghost var n := t + 2;
      while next <= last
        invariant t + 2 <= n <= |history| && next == start + (n - t - 1) && pos == n - 2 - low
        invariant oplogs == history[t + 1..n]
        decreases |history| - n
      {
        pos := pos + 1;
        Placed(t + 1, |history|, n);
        assert pos < |list| && list[pos].version == next;
        oplogs := oplogs + [list[pos].oplog];
        next := next + 1;
        n := n + 1;
      }
      assert history[t + 1..n] == history[t + 1..];
    }

    /** The search of OpLogIterInit; `at` is where the version stands. */
    method FindVersion(start: int, ghost at: int) returns (pos: nat)
      requires Valid() && 0 <= at < |list| && start == U32(versions.trueMin + 1 + at)
      ensures pos == at
    {
      pos := 0;
      while list[pos].version != start
        invariant pos <= at
        decreases at - pos
      {
        pos := pos + 1;
      }
      WindowNames(versions.trueMin + 1, versions.trueMin + 1 + pos, versions.trueMin + 1 + at);
    }

    // ---------------------------------------------- requests

    /** AddRowRequest, as in the pull manager but without version counts. */
    method AddRowRequest(key: Key, thread: int, clock: nat, version: int) returns (sent: bool)
      requires LinesOk()
      modifies this`pending, this`asked
      ensures LinesOk()
      ensures sent <==> forall x | x in ListOf(old(pending), key) :: clock < x.clock
      ensures Joined(ListOf(old(pending), key), ListOf(pending, key), thread, clock, version)
      ensures pending == old(pending)[key := ListOf(pending, key)]
      ensures asked == old(asked) + if sent then {Ask(key, clock)} else {}
    {
      var r := RowRequest(thread, clock, version, true);
      ghost var was := pending;
      var p := JoinLine(key, r);
      sent := p == 0;
      AddedOk(was, key, p, r, asked);
      asked := asked + if sent then {Ask(key, clock)} else {};
    }

    /** A new request takes its place in line. */
    method JoinLine(key: Key, r: RowRequest) returns (p: nat)
      modifies this`pending
      ensures p <= |ListOf(old(pending), key)| && pending == old(pending)[key := Inserted(ListOf(old(pending), key), p, r)]
      ensures p > 0 ==> ListOf(old(pending), key)[p - 1].clock <= r.clock
      ensures forall i | p <= i < |ListOf(old(pending), key)| :: r.clock < ListOf(old(pending), key)[i].clock
    {
      var list := ListOf(pending, key);
      p := FindSlot(list, r.clock);
      pending := pending[key := Inserted(list, p, r)];
    }

    /** InformReply, as in the pull manager; the request that is sent keeps its version. */
    method InformReply(key: Key, clock: int, ghost c: nat) returns (threads: seq<int>, resend: int)
      requires LinesOk() && c <= clock
      modifies this`pending, this`asked
      ensures LinesOk()
      ensures threads == Released(old(pending), key, clock) && resend == ToResend(old(pending), key, clock)
      ensures pending == Remaining(old(pending), key, clock, FrontVersion(old(pending), key, clock))
      ensures ServedUpTo(ListOf(old(pending), key), ListOf(pending, key), threads, resend, clock, FrontVersion(old(pending), key, clock))
      ensures pending - {key} == old(pending) - {key}
      ensures asked == StillAsked(old(asked), key, c, resend)
    {
      RepliedOk(pending, key, c, clock, FrontVersion(pending, key, clock), asked);
      var left := ListOf(pending, key);
      ghost var list := left;
      ghost var m := 0;
      threads, resend := [], -1;
      while left != [] && left[0].clock <= clock
        invariant 0 <= m <= |list| && left == list[m..] && threads == Threads(list[..m])
        invariant forall i | 0 <= i < m :: list[i].clock <= clock
        decreases |left|
      {
        threads := threads + [left[0].thread];
        left := left[1..];
        m := m + 1;
        assert list[..m] == list[..m - 1] + [list[m - 1]];
      }
      DueFrom(list, clock, m);
      if left == [] {
        pending := pending - {key};
      } else {
        if !left[0].sent {
          resend := left[0].clock;
        }
        pending := pending[key := Resent(left, left[0].version)];
      }
      asked := StillAsked(asked, key, c, resend);
    }
  }

  ghost function FrontVersion(was: Pending, key: Key, clock: int): int {
    var list := ListOf(was, key);
    var n := Due(list, clock);
    if n < |list| then list[n].version else -1
  }

  lemma RunSuffix<T>(was: seq<Entry<T>>, now: seq<Entry<T>>, low: int, low': int, history: seq<T>)
    requires IsRun(was, low, history) && IsRun(now, low', history) && low <= low'
    ensures low' - low <= |was| && now == was[low' - low..]
  {
  }
}
