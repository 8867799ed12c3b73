/** Rebuilding a row from retained oplogs.

    The protocol's BuildRow replays a bg thread's whole log; the code has only what its log manager
    retained. For every reply the managers can serve the two agree; ManagerRuns follows the managers
    over runs. */
module RowReplay {
  import opened PsTypes
  import opened ServerVersions
  import opened PendingRequests
  import opened PullLog
  import opened PushLog

  /** The loop of ApplyOldOpLogsToRowData: each oplog's entry for row `k`, in order. */
  method ApplyOpLogs(row: Row, oplogs: seq<Shipment>, k: Key) returns (r: Row)
    ensures r == row + Replay(oplogs, 0, |oplogs|, k)
  {
    r := row;
    var i := 0;
    while i < |oplogs|
      invariant 0 <= i <= |oplogs| && r == row + Replay(oplogs, 0, i, k)
    {
      r := r + At(oplogs[i].rows, k);
      i := i + 1;
    }
  }

  /** Replaying the retained suffix is replaying the log from there. */
  lemma {:induction false} ReplaySuffix(log: seq<Shipment>, n: nat, to: nat, k: Key)
    requires n <= to <= |log|
    ensures Replay(log[n..], 0, to - n, k) == Replay(log, n, to, k)
  {
    if n < to {
      ReplaySuffix(log, n, to - 1, k);
    }
  }

  /** Pull: a covered reply that reflects version `t`, while versions have not wrapped past it. */
  method RebuildFromPull(mgr: PullLogMgr<Shipment>, t: int, content: Row, k: Key) returns (row: Row)
    requires mgr.Valid() && -1 <= t < mgr.current && Near(t, mgr.current) && Replayable(t, mgr.versions, mgr.current)
    requires U32(t + 1) <= U32(mgr.current)
    ensures row == content + Replay(mgr.history, t + 1, |mgr.history|, k)
  {
    var oplogs := mgr.OpLogsAfter(t);
    row := ApplyOpLogs(content, oplogs, k);
    ReplaySuffix(mgr.history, t + 1, |mgr.history|, k);
  }

  /** Push: an acknowledged version `t`, while versions have not wrapped past it. */
  method RebuildFromPush(mgr: PushLogMgr<Shipment>, version: int, current: int, ghost t: int, content: Row, k: Key) returns (row: Row)
    requires mgr.Valid() && mgr.versions.trueMin <= t < |mgr.history| && version == U32(t) && current == U32(|mgr.history|)
    requires U32(t + 1) <= U32(|mgr.history|)
    ensures row == content + Replay(mgr.history, t + 1, |mgr.history|, k)
  {
    var oplogs := mgr.OpLogsAfter(version, current, t);
    row := ApplyOpLogs(content, oplogs, k);
    ReplaySuffix(mgr.history, t + 1, |mgr.history|, k);
  }
}
