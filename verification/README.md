# Petuum: the parameter server, the LDA sampler and the STRADS scheduler, verified

This project models the hard core of Petuum in Dafny and proves what that code is for.

* **The SSP parameter server** (`PsTypes`, `ClientNode`, `ClientProofs`, `Protocol`, `ProtocolProofs`,
  `PushFreshness`, `SspTheorems`, `ClockTheorems`, `ServedReads`, `Progress`, `InsertionRace`, `RowReplay`,
  `ManagerRuns`) is a step system: application threads, bg threads and servers interleave freely, a step being
  what the code does while it holds one lock or handles one message.
  Updates carry their identity, so a row is the multiset of updates it has absorbed, and "exactly once" is a
  count; the numbers in a real row are the image of that multiset under any commutative accumulation. The
  theorems range over every state of every run, any number of clients, threads, bg threads and servers, any
  assignment of rows to them, and both consistency models (SSP, which pulls rows, and SSPPush).
* **Its bookkeeping** (`VectorClocks`, `RequestQueue`, `ServerVersions`, `PendingRequests`, `PullLog`,
  `PushLog`, `NameNode`) is imperative: classes with the code's own fields, loops with invariants, and ghost
  unbounded versions beside the 32-bit ones.
* **Its wire formats** (`WireBytes`, `RowWire`, `PushStream`, `PushPacker`, `OpLogLayout`, `OpLogWriter`,
  `OpLogMessages`) are modelled byte by byte: what the writer lays out, the reader reads back.
* **The sparse LDA sampler** (`LdaBuckets`, `LdaSampler`, `LdaDocument`) and **the STRADS scheduler**
  (`Correlation`, `WeightedSampling`, `Interference`) are modelled in exact reals.

## Steps of the protocol

The transitions are ghost predicates and carry no contract of their own; the lemmas below are about them.

| step | what it is in the code |
|---|---|
| `ClientNode.Inc` | SSPConsistencyController::Inc and BatchInc, under the row's oplog lock (ssp_consistency_controller.cpp:94-132) |
| `ClientNode.ThreadInc` | ThreadTable::Inc and BatchInc (thread_table.cpp:100-156) |
| `ClientNode.FlushRow`, `FlushEnd` | a turn of the first loop of a table's FlushCache, and its end (thread_table.cpp:158-195) |
| `ClientNode.ClockBegin`, `FlushIndex`, `Tick` | TableGroup::Clock, conservative or aggressive, table by table and partition by partition (table_group.cpp:195-230; thread_table.cpp:59-66) |
| `ClientNode.CanRead`, `ThreadGet` | the freshness test of Get and ThreadGet (ssp_consistency_controller.cpp:54-92, 134-187; ssp_push_consistency_controller.cpp:80-169) |
| `ClientNode.ShipBegin`, `ShipTable`, `ShipRow`, `ShipEnd` | GetOpLogAndIndex, table by table and row by row, and HandleClockMsg (bg_workers.cpp:673-749, 796-828; oplog_index.cpp:57-75; oplog_partition.cpp:131-142) |
| `ClientNode.BuildRow`, `InsertRow` | ApplyOpLogsAndInsertRow, before and after the oplog lookup releases its lock (bg_workers.cpp:507-557; oplog_partition.cpp:91-101) |
| `ClientNode.SeeClock`, `AdvanceSystemClock` | the is_clock part of a push message (bg_workers.cpp:1017-1034) |
| `Protocol.Apply` | HandleOpLogMsg: ApplyOpLog, then Clock (server_threads.cpp:299-315; server.cpp:96-116, 157-203) |
| `Protocol.Reply` | ReplyRowRequest (server_threads.cpp:255-297) |
| `Protocol.PushAll` | ServerPushRow (server.cpp:213-333; server_table.hpp:87-126) |
| `Protocol.Receive` | HandleServerRowRequestReply and the kServerPushRow case (bg_workers.cpp:559-611, 1004-1037) |

Where the code and its intent part, the model follows the code as described here:

* The copy constructor and assignment of RowRequestInfo drop `sent`
  (src/petuum_ps/thread/row_request_oplog_mgr.hpp:56-66). The request lists here keep it.
* The pruning loop assigns through a reference to a list node it has popped
  (src/petuum_ps/thread/ssp_push_row_request_oplog_mgr.cpp:136-159). Here the front is read again each turn.
* A row without an oplog entry is not locked between its rebuilding and its insertion. The model has both as
  separate steps; `InsertionRace` says exactly what goes wrong in between and when it does not.
* Replay compares 32-bit versions with `<` and `>`. Both `OpLogsAfter` methods say exactly when that is right.
* A reply may find no pending request, and then the oplogs it needs may be gone: `PullLog.ReplayableIff` says
  exactly when, `PullLog.OvertakenReply` shows a case.
* 32-bit version numbers name versions uniquely while no request (pull) and no server (push) is 2^32 versions
  behind, which is what the code's own comments and fatal checks assume; it is a precondition of shipping
  another version, and `ServerVersions.SpreadIsExact` shows that it cannot be weakened.
* A table is asked for once by each client and answered once by each server, and a server answers a row request
  at no less than the clock asked for: these are preconditions of the handlers that receive such messages. That
  acknowledged versions of a server do not go back is one too, and `ManagerRuns` proves that every run keeps it.
* Row copies that arrive in a push are stamped with clock 0 in the code and with the server's clock here;
  reads under SSPPush do not look at the stamp.
* `ClientNode.BuildRow` replays a bg's whole log, the code what its log manager retained. `RowReplay` and
  `ManagerRuns` follow the managers beside the protocol and show that both build the same row until 32-bit versions
  wrap: under SSPPush in every run, under SSP for every reply that some pending request covers.
* `Protocol.Reply` may happen at any time, requested or not; the code's runs are among those.

## Model

| member | source | states |
|---|---|---|
| `SspTheorems.GetIsFresh` | src/petuum_ps/consistency/ssp_consistency_controller.cpp:54-92 | In every state of every run, under both consistency models: the copy a Get may return holds every update any thread of any process made at a clock below max(0, c - staleness), each exactly once, holds nothing that was not issued for that row, and no thread anywhere has a clock below that bound. |
| `ServedReads.ServedReadSucceeds` | src/petuum_ps/consistency/ssp_consistency_controller.cpp:54-92 | The other side of freshness, which the code checks fatally: once the reply a server sent at clock m has been taken off its channel and inserted, and unless the row was evicted since, the row may be read under SSP by every thread at a clock up to m + staleness, and its stamp is at least m, whatever else has happened meanwhile; under SSPPush, by every thread at a clock up to the system clock + staleness. |
| `ServedReads.NextMoved` | src/petuum_ps/thread/bg_workers.cpp:535-582 | No step loses an awaited copy or replaces a landed one by an older one, except eviction. |
| `ServedReads.PushedReadSucceeds` | src/petuum_ps/consistency/ssp_push_consistency_controller.cpp:80-169 | When all servers have reached clock m and pushed it, the channels to a client are empty and its system clock has no step left to take, every cached row may be read by every thread at a clock up to m + staleness. |
| `Progress.ClockCompletes` | src/petuum_ps/client/table_group.cpp:195-230 | A call of Clock by any thread has a way to its end while no row is being inserted: the thread's clock is one more, its updates are in the process oplog once, the rows it touched are in the shared index, its own caches are empty, and every bg is told if and only if it was the sole slowest thread. |
| `Progress.ShipmentFinishes` | src/petuum_ps/thread/bg_workers.cpp:673-828 | A shipment has a way to its end: one version is appended to the bg's log, it carries the unsent updates of exactly the indexed rows of the partition, these leave the process oplog, and no other row, bg or thread changes. |
| `SspTheorems.ThreadRowsStayFresh` | src/petuum_ps/consistency/ssp_consistency_controller.cpp:134-187 | The same bound holds for every row a thread keeps in its own cache, for as long as it keeps it, and every update of its own it has not flushed is in that row exactly once (read-my-writes for the thread cache). |
| `SspTheorems.CachedRowIsExact` | src/petuum_ps/thread/bg_workers.cpp:507-557 | A cached row is the other clients' updates of the server copy it came from plus each local update that has left its thread exactly once, except those recorded as having slipped past its insertion. |
| `SspTheorems.Conservation` | src/petuum_ps/thread/bg_workers.cpp:673-749 | In every state of every run an issued update is in exactly one place (thread buffer, process oplog, shipment being packed, in flight, server row), and an update not issued for the row is nowhere. |
| `SspTheorems.ServerClockMeansApplied` | src/petuum_ps/server/server_threads.cpp:299-336 | A server whose minimum clock is m holds every update to its rows tagged below m, by anyone, once; and no thread has a clock below m. |
| `SspTheorems.ServerKeepsOwnRows` | src/petuum_ps/server/server.cpp:96-116 | In every run a server has rows of its own only. |
| `SspTheorems.PushedClocksAreConsecutive` | src/petuum_ps/thread/bg_workers.cpp:1004-1037 | Under SSPPush the fatal check on a pushed clock never fails, and the system clock never exceeds any server clock any bg has seen, nor that the server's own. |
| `SspTheorems.CleanRowWasSent` | src/petuum_ps/server/server_table.hpp:87-126 | Under SSPPush a row that is not dirty has been sent in its current value to every client that has a copy: with nothing in flight, the copy shows the foreign updates the server's row shows. |
| `SspTheorems.ReadIsFreshAt` | src/petuum_ps/consistency/ssp_push_consistency_controller.cpp:80-119 | The read guarantee from the invariants, for a pull read by the row's clock and for a push read by the system clock. |
| `SspTheorems.ThreadGetRow` | src/petuum_ps/consistency/ssp_push_consistency_controller.cpp:121-169 | The process copy plus the thread's unflushed updates is fresh, holds each update at most once and every unflushed one exactly once. |
| `SspTheorems.RunWhole` | src/petuum_ps/consistency/ssp_consistency_controller.cpp:54-187 | All invariants together, client, server, push and thread cache, hold in every state of every run. |
| `InsertionRace.MissesIffRaces` | src/petuum_ps/oplog/oplog_partition.cpp:91-101 | From a client whose copies miss nothing, a step makes a copy miss a local update if and only if it delivers an update to a row whose rebuilt copy is not inserted yet. |
| `InsertionRace.EntryIsHeld` | src/petuum_ps/thread/bg_workers.cpp:545-556 | The oplog entry of a rebuilt row is held if and only if there is one. |
| `InsertionRace.HeldUntilInserted` | src/petuum_ps/oplog/oplog_partition.cpp:91-101 | A held row stays held, with its entry and its rebuilt copy untouched, until it is inserted. |
| `InsertionRace.RaceFreeReadMyWrites` | src/petuum_ps/thread/bg_workers.cpp:535-557 | In runs without such a step every cached row holds each local update that has left its thread exactly once, without exception. |
| `InsertionRace.RacingRunMissesAnUpdate` | src/petuum_ps/thread/bg_workers.cpp:547-556 | A five-state run under pull SSP: thread 1 has asked for the row and stays blocked; thread 0 increments it between rebuilding and insertion, and may at the end read it without its own finished Inc. |
| `ClientProofs.IncKeeps` | src/petuum_ps/consistency/ssp_consistency_controller.cpp:94-108 | An Inc into the process oplog and cache keeps conservation, indexing, log freshness and read-my-writes. |
| `ClientProofs.ThreadIncKeeps` | src/petuum_ps/client/thread_table.cpp:100-124 | An Inc into the thread's own oplog keeps the client invariant. |
| `ClientProofs.FlushKeeps` | src/petuum_ps/client/thread_table.cpp:158-195 | Flushing a row moves its updates from the thread to the process exactly once. |
| `ClientProofs.TickKeeps` | src/petuum_ps/client/table_group.cpp:195-230 | A tick keeps the client invariant: the process clock exceeds no thread's clock, and every bg is told of each of its advances once. |
| `ClockTheorems.ProcessClockIsMinimum` | src/petuum_ps/client/table_group.cpp:208-230 | In every state of every run a process's clock is the minimum of its threads' clocks: no thread is below it and some thread is at it. |
| `ClientProofs.ShipBeginKeeps` | src/petuum_ps/thread/bg_workers.cpp:673-684 | A shipment that ends a clock begins with every older unsent update of its partition in the shared index of some table. |
| `ClientProofs.ShipTableKeeps` | src/petuum_ps/oplog/oplog_index.cpp:57-75 | Taking the shared index of one table leaves every unsent update reachable, by this shipment if it is older than the clock being ended. |
| `ClientProofs.ShipRowKeeps` | src/petuum_ps/oplog/oplog_partition.cpp:131-142 | Erasing a row's oplog moves it into the shipment, nothing lost or doubled. |
| `ClientProofs.ShipEndKeeps` | src/petuum_ps/thread/bg_workers.cpp:796-828 | After a shipment that ends clock m, the log holds every local update tagged below m + 1, once. |
| `ClientProofs.BuildKeeps` | src/petuum_ps/thread/bg_workers.cpp:507-533 | The server copy plus the shipments it had not applied plus the unsent oplog is each flushed local update once. |
| `ClientProofs.InsertKeeps` | src/petuum_ps/thread/bg_workers.cpp:535-557 | Insertion keeps the invariant, including what is recorded as missed. |
| `ProtocolProofs.ApplyKeeps` | src/petuum_ps/server/server.cpp:157-203 | Applying a shipment keeps the server's row equal to what it received and each bg's clock equal to the clocks in what that bg sent, with the client's clock and the server's below it. |
| `ClockTheorems.ServerClockIsMinimum` | src/petuum_ps/server/server.cpp:96-116 | In every state of every run a server's clock of a client is the least clock received from any of that client's bgs, and the server's own clock is the least of those. |
| `ProtocolProofs.ReplyKeeps` | src/petuum_ps/server/server_threads.cpp:255-297 | A reply carries the server's exact row, the shipments it reflects, and a clock all clients have completed. |
| `ProtocolProofs.PushKeeps` | src/petuum_ps/server/server.cpp:213-333 | So does every row of a push. |
| `ProtocolProofs.ReceiveKeeps` | src/petuum_ps/thread/bg_workers.cpp:559-611 | The client that rebuilds a row from a reply or push holds an exact copy. |
| `ProtocolProofs.NextKeeps` | src/petuum_ps/thread/bg_workers.cpp:559-653 | Every step of the system keeps the invariant. |
| `ProtocolProofs.RunInv` | src/petuum_ps/server/server_threads.cpp:255-336 | The invariant holds in every state of every run. |
| `PushFreshness.CutOkCovers` | src/petuum_ps/server/server_threads.cpp:255-277 | A copy with an honest clock holds every update tagged below that clock, once. |
| `PushFreshness.ApplyPush` | src/petuum_ps/server/server_row.hpp:65-110 | Applying updates marks rows dirty, so that a clean row stays what its subscribers were sent. |
| `PushFreshness.ReplyPush` | src/petuum_ps/server/server_threads.cpp:255-277 | A reply makes its receiver a subscriber that has been sent the current row. |
| `PushFreshness.PushAllPush` | src/petuum_ps/server/server.cpp:213-333 | After a push every subscriber has been sent every row it holds in its current value, before the new clock. |
| `PushFreshness.ReceivePush` | src/petuum_ps/thread/bg_workers.cpp:1004-1037 | When a bg sees clock k from a server, its copies of that server's rows hold every update tagged below k. |
| `PushFreshness.ClientMovesPush` | src/petuum_ps/thread/bg_workers.cpp:1017-1034 | No client step, the system clock's included, makes a copy too old for the clocks seen. |
| `PushFreshness.RunPush` | src/petuum_ps/consistency/ssp_push_consistency_controller.cpp:80-119 | The push invariant holds in every state of every SSPPush run. |
| `VectorClocks.TickedMin` | src/petuum_ps_common/util/vector_clock.cpp:56-64 | One tick moves the true minimum by one if a sole slowest participant makes it, and not at all otherwise. |
| `VectorClocks.VectorClock.FromIds` | src/petuum_ps_common/util/vector_clock.cpp:36-45 | All clocks start at zero; the cached minimum is true if and only if there is a participant. |
| `VectorClocks.VectorClock.AddClock` | src/petuum_ps_common/util/vector_clock.cpp:47-54 | The cached minimum stays true unless this moves a sole slowest participant forward (both directions). |
| `VectorClocks.VectorClock.Tick` | src/petuum_ps_common/util/vector_clock.cpp:56-64 | Returns the new minimum exactly when the true minimum moved, else 0; the cached minimum stays the true one. |
| `VectorClocks.VectorClock.IsUniqueMin` | src/petuum_ps_common/util/vector_clock.cpp:80-93 | True exactly when this participant alone has the minimum. |
| `RequestQueue.RequestServer.Clock` | src/petuum_ps/server/server.cpp:96-116 | True exactly when the server's minimum over all bgs of all clients moved, and then by one. |
| `RequestQueue.RequestServer.MinOverAllBgs` | src/petuum_ps/server/server.cpp:96-102 | The two levels of clocks give the least clock of any bg of any client. |
| `RequestQueue.EnqueueFiles` | src/petuum_ps/server/server.cpp:118-136 | A queued request is filed behind the others of its clock and bg, once more than before, and everything else as before. |
| `RequestQueue.RequestServer.HandleRowRequest` | src/petuum_ps/server/server_threads.cpp:255-277 | Answered at once if its clock is reached, queued otherwise; every request received is answered or waiting, never both. |
| `RequestQueue.RequestServer.GetFulfilledRowRequests` | src/petuum_ps/server/server.cpp:138-155 | Takes out exactly the requests for the present clock, each as often as it waits. |
| `RequestQueue.RequestServer.HandleClock` | src/petuum_ps/server/server_threads.cpp:312-335 | The bg's clock moves by one, no other does, and the server's minimum moves exactly when no bg is left at the old one; when it reaches c, exactly the requests for c are answered, once each, with clock c, those of each bg in the order they came; every other request keeps waiting for a clock still to come. |
| `ServerVersions.LessIsLess` | src/petuum_ps/thread/server_version_mgr.cpp:65-90 | Within a window of 2^32, both comparisons of 32-bit versions are the comparison of the true ones. |
| `ServerVersions.SpreadIsExact` | src/petuum_ps/thread/server_version_mgr.cpp:46-60 | 32 bits tell every acknowledgement by a sole slowest server from none if and only if it is less than 2^32 versions behind. |
| `ServerVersions.FarBehindGoesUnnoticed` | src/petuum_ps/thread/server_version_mgr.cpp:48-49 | At 2^32 versions behind, an acknowledgement that moves the true minimum leaves the stored number the same. |
| `ServerVersions.NotWrappedIff` | src/petuum_ps/thread/bg_workers.cpp:510-513 | The test that starts a replay is right exactly when the first version to replay and the present one lie in the same block of 2^32. |
| `ServerVersions.WrappedReplayFindsNothing` | src/petuum_ps/thread/bg_workers.cpp:510-513 | At true version 2^32 + 1 a row that reflects version 2^32 - 2 has two oplogs to be replayed, and the test says there are none. |
| `ServerVersions.ServerVersionMgr.IsUniqueMin` | src/petuum_ps/thread/server_version_mgr.cpp:104-116 | True exactly when this server alone has the true minimum. |
| `ServerVersions.ServerVersionMgr.IncVersionUpperBound` | src/petuum_ps/thread/server_version_mgr.cpp:42-44 | The stored bound stays the true one modulo 2^32, across the wrap. |
| `ServerVersions.ServerVersionMgr.Scan` | src/petuum_ps/thread/server_version_mgr.cpp:64-91 | The scan finds the true minimum of all servers, wrapped or not. |
| `ServerVersions.ServerVersionMgr.SetServerVersion` | src/petuum_ps/thread/server_version_mgr.cpp:46-94 | The stored minimum stays the true minimum modulo 2^32, the answer is true exactly when it grew, and CHECK_LE cannot fail. |
| `PendingRequests.FindSlot` | src/petuum_ps/thread/row_request_oplog_mgr.cpp:56-71 | The place behind everyone with a clock up to one's own. |
| `PendingRequests.AddedOk` | src/petuum_ps/thread/row_request_oplog_mgr.cpp:37-73 | The request stands, with its own thread, clock and version, behind everyone with a clock up to its own and before all others, who are unchanged; it is sent on exactly when it is first; lists stay sorted and their fronts outstanding. |
| `PendingRequests.JoinedWaiters` | src/petuum_ps/thread/row_request_oplog_mgr.cpp:56-71 | So exactly one more (thread, clock) waits for the row. |
| `PendingRequests.DueSplits` | src/petuum_ps/thread/row_request_oplog_mgr.cpp:91-98 | The prefix a reply releases is exactly the requests with clock at most the reply's. |
| `PendingRequests.RepliedOk` | src/petuum_ps/thread/row_request_oplog_mgr.cpp:84-132 | A reply at clock k lets go exactly the threads whose clock is at most k, in order; all others stay with their thread and clock; the first of them is outstanding afterwards, its clock being returned if it was not before. |
| `PendingRequests.ServedWaiters` | src/petuum_ps/thread/row_request_oplog_mgr.cpp:91-98 | So of the (thread, clock) pairs waiting for the row exactly those with clock up to k are gone. |
| `PullLog.PullLogMgr.AddRowRequest` | src/petuum_ps/thread/row_request_oplog_mgr.cpp:37-82 | The asker joins the line with its own thread and clock at the last shipped version, no other row or request changes, and it is sent on exactly if all others ask for later clocks; per-version counts stay the numbers of pending requests of each version, and saved oplogs exactly the needed ones. |
| `PullLog.PullLogMgr.InformReply` | src/petuum_ps/thread/row_request_oplog_mgr.cpp:84-132 | Returns exactly the threads with clock up to the reply's, in order; the others keep thread and clock, an unsent new front is asked for at the present version, and the whole invariant is kept. |
| `PullLog.PullLogMgr.AddOpLog` | src/petuum_ps/thread/row_request_oplog_mgr.cpp:134-146 | The oplog is saved exactly when a request is pending, and its number is never taken. |
| `PullLog.PullLogMgr.CleanVersionOpLogs` | src/petuum_ps/thread/row_request_oplog_mgr.cpp:154-180 | Terminates, and leaves saved exactly the versions above the oldest pending request's and below the present one. |
| `PullLog.ReplayableIff` | src/petuum_ps/thread/row_request_oplog_mgr.cpp:148-152 | Every oplog after version t is saved if and only if t is the newest version or some pending request has version at most t. |
| `PullLog.PullLogMgr.OpLogsAfter` | src/petuum_ps/thread/bg_workers.cpp:507-533 | A covered reply's replay meets no fatal check, and yields every later oplog in order if and only if version t + 1 has not wrapped past the present one. |
| `PullLog.OvertakenReply` | src/petuum_ps/thread/row_request_oplog_mgr.cpp:56-82 | A request for clock 0 is sent while one for clock 1 is outstanding; the reply to the latter serves both, and the reply to the former, which reflects version 0, arrives with nobody pending and version 1 gone. |
| `PushLog.PrunableIff` | src/petuum_ps/thread/ssp_push_row_request_oplog_mgr.cpp:136-159 | The pruning test on 32-bit versions is the comparison of the true ones, wrapped or not. |
| `PushLog.PushLogMgr.AddOpLog` | src/petuum_ps/thread/ssp_push_row_request_oplog_mgr.cpp:99-117 | The retained list stays the consecutive run of versions sent and not acknowledged by all servers. |
| `PushLog.PushLogMgr.ServerAcknowledgeVersion` | src/petuum_ps/thread/ssp_push_row_request_oplog_mgr.cpp:119-162 | Exactly the versions all servers have acknowledged are removed from the front, across the wrap. |
| `PushLog.PushLogMgr.OpLogsAfter` | src/petuum_ps/thread/ssp_push_row_request_oplog_mgr.cpp:164-196 | A replay for an acknowledged version meets no fatal check, and is complete if and only if the versions after it have not wrapped past the present one. |
| `RowReplay.RebuildFromPull` | src/petuum_ps/thread/bg_workers.cpp:507-533 | For a covered, unwrapped reply, applying what the pull manager retained gives the server copy plus the replay of the full log after its version. |
| `RowReplay.RebuildFromPush` | src/petuum_ps/thread/bg_workers.cpp:507-533 | The same for an acknowledged version and the push manager. |
| `ManagerRuns.StepFollows` | src/petuum_ps/thread/bg_workers.cpp:796-828 | Whatever step is taken, a manager's notes keep agreeing with the system: it was given exactly the bg's log, and each server's messages under way carry versions in order, none older than the last acknowledged and none newer than what that server has applied. |
| `ManagerRuns.EveryRunHappens` | src/petuum_ps/thread/bg_workers.cpp:987-1040 | Each step of every run is, for a given bg, a version sent, a message of a server handled, or neither. |
| `ManagerRuns.RunFollows` | src/petuum_ps/thread/bg_workers.cpp:796-828 | So the notes agree in every state of every run. |
| `ManagerRuns.VersionsNeverGoBack` | src/petuum_ps/thread/bg_workers.cpp:1004-1012 | In every run, a message from a server carries a version that the bg has sent and that is not older than the last one this server acknowledged to it. |
| `ManagerRuns.ShipAndKeep` | src/petuum_ps/thread/bg_workers.cpp:819-827 | The push manager takes a ShipEnd step by AddOpLog, and its notes agree afterwards. |
| `ManagerRuns.Acknowledge` | src/petuum_ps/thread/bg_workers.cpp:1004-1012 | The push manager takes every message by ServerAcknowledgeVersion: its precondition holds, the notes agree afterwards, and everything after the message's version is retained. |
| `ManagerRuns.HandlePushedRow` | src/petuum_ps/thread/bg_workers.cpp:618-651 | For any row received under SSPPush, what is rebuilt from the retained oplogs and the unsent entry is the row the protocol inserts, unless versions have wrapped since, when only the unsent entry is added. |
| `ManagerRuns.ShipAndTrack` | src/petuum_ps/thread/bg_workers.cpp:819-827 | The pull manager takes a ShipEnd step by AddOpLog, and its notes agree afterwards. |
| `ManagerRuns.HandlePulledRow` | src/petuum_ps/thread/bg_workers.cpp:535-582 | For a reply under SSP that some pending request covers, the rebuilt row is the one the protocol inserts, with the same exception. |
| `PushLog.PushLogMgr.AddRowRequest` | src/petuum_ps/thread/ssp_push_row_request_oplog_mgr.cpp:37-69 | The asker joins the line with its own thread and clock, no other row or request changes, and it is sent on exactly when all others for its row ask for later clocks; lists stay sorted and their fronts outstanding. |
| `PushLog.PushLogMgr.InformReply` | src/petuum_ps/thread/ssp_push_row_request_oplog_mgr.cpp:71-96 | Returns exactly the threads with clock up to the reply's, in order; the others keep thread, clock and version, and an unsent new front is asked for. |
| `RowWire.SerializedRowReader.Restart` | src/petuum_ps/client/serialized_row_reader.hpp:68-76 | Opens the first table, or reports a message that holds only the end mark. |
| `RowWire.SerializedRowReader.Next` | src/petuum_ps/client/serialized_row_reader.hpp:78-123 | The next row of the message under its table, across separators and empty tables; none exactly when no row is left, wherever the message ends. |
| `RowWire.ReadRows` | src/petuum_ps/thread/bg_workers.cpp:618-653 | Reading a message yields all its rows, in order. |
| `PushStream.PutRowOk` | src/petuum_ps_common/util/record_buff.hpp:67-82 | A record is appended whole, in the layout the reader expects, or not at all, exactly when it does not fit. |
| `PushStream.RowBytes` | src/petuum_ps_common/util/record_buff.hpp:67-82 | A record is its id, its length and its data, one after the other. |
| `PushStream.PutIntOk` | src/petuum_ps_common/util/record_buff.hpp:88-98 | An int32 goes in exactly when four bytes are left, and disturbs nothing before it. |
| `PushStream.ReopenOk` | src/petuum_ps/server/server.cpp:263-283 | A full buffer is sent so that it reads as what was written, and continued in the same table. |
| `PushStream.ReopenedHasRoom` | src/petuum_ps/server/server.cpp:263-283 | The retry gets past the row that failed if and only if table id and one record fit a fresh buffer. |
| `PushStream.SeparateOk` | src/petuum_ps/server/server.cpp:287-308 | After a table comes a separator, or a new message when it does not fit; nothing said is lost. |
| `PushStream.FinishOk` | src/petuum_ps/server/server.cpp:311-332 | The last message, with or without room for the end mark, completes what was said and alone is a clock message; a message that ends with the end mark has no byte after it. |
| `PushPacker.Packer.AppendRowToBuffs` | src/petuum_ps/server/callback_subs.hpp:66-94 | Clients from the resume point on get the row once each, up to the first whose buffer is full. |
| `PushPacker.Packer.AppendTableToBuffs` | src/petuum_ps/server/server_table.hpp:87-126 | Resuming neither skips nor repeats a row for any client, and clears the dirty flags of subscribed rows. |
| `PushPacker.Packer.PackRows` | src/petuum_ps/server/server.cpp:258-283 | The retry loop terminates, and every bg has been told exactly the table's dirty, subscribed rows of its partition. |
| `PushPacker.PushRows` | src/petuum_ps/server/server.cpp:213-333 | For any tables, subscriptions and capacity that fits a table id and any one record, the messages to a bg read as every dirty row of its partition its client subscribes to, in order, once, under the right table; exactly the last is a clock message; dirty flags are cleared exactly for rows someone subscribes to. |
| `PushPacker.ReadAll` | src/petuum_ps/client/serialized_row_reader.hpp:68-123 | The round trip: the bg reads exactly what it was due. |
| `WireBytes.Int32RoundTrip` | src/petuum_ps/oplog/serialized_oplog_reader.hpp:52-56 | Two's complement little-endian int32. |
| `WireBytes.LittleEndian` | src/petuum_ps_common/util/record_buff.hpp:67-82 | The lowest byte of an int32 comes first, and a negative one is stored as itself plus 2^32. |
| `RowWire.Marks` | src/petuum_ps/thread/context.hpp:117-123 | The separator and the end mark are the bytes of -1 and -2, which no id looks like. |
| `WireBytes.UInt64RoundTrip` | src/petuum_ps/oplog/serialized_oplog_reader.hpp:111-113 | Little-endian size_t. |
| `OpLogLayout.SerializedOpLogReader.Next` | src/petuum_ps/oplog/serialized_oplog_reader.hpp:65-103 | The next row's updates under its table, skipping tables without rows; none exactly when all are read. |
| `OpLogLayout.SerializedOpLogReader.StartNewTable` | src/petuum_ps/oplog/serialized_oplog_reader.hpp:106-117 | Reads a table's id, update size and row count from where its section starts. |
| `OpLogLayout.ReadEntries` | src/petuum_ps/server/server.cpp:157-203 | Reading a message yields all its entries, column by column, in order. |
| `OpLogWriter.WriteRow` | src/petuum_ps/thread/bg_oplog_partition.cpp:73-106 | Row id, count, column ids and updates are laid out in two parallel arrays, and nothing else is touched. |
| `OpLogWriter.SectionSizes` | src/petuum_ps/thread/bg_workers.cpp:706-735 | The precomputed size of each server's section is the number of bytes written to it. |
| `OpLogWriter.SerializeByServer` | src/petuum_ps/thread/bg_oplog_partition.cpp:61-111 | Each server's section holds the count and the rows that live on it, in order, within its own bytes. |
| `OpLogMessages.Init` | src/petuum_ps/oplog/serialized_oplog_reader.hpp:140-156 | Table offsets and the message size follow the sections without gap or overlap. |
| `OpLogMessages.CreateOpLogMsgs` | src/petuum_ps/thread/bg_workers.cpp:751-794 | Every server's message has exactly the computed size and spells exactly its share of every table, empty tables included. |
| `OpLogMessages.EachEntryToItsServer` | src/petuum_ps/thread/bg_oplog_partition.cpp:73-79 | Each entry is in its own server's message as often as in the oplog, and in no other message. |
| `OpLogMessages.ShipAndRead` | src/petuum_ps/thread/bg_workers.cpp:751-794 | The round trip: what a server reads is its part of the oplog, each (table, row, columns, deltas) entry as often as shipped. |
| `LdaBuckets.InsideIsUnique` | apps/lda/src/fast_doc_sampler.cpp:228-281 | A dart strictly inside a term hits no other term, so a term's darts have the length of its mass. |
| `LdaBuckets.TermsMakeConditional` | apps/lda/src/fast_doc_sampler.cpp:204-226 | The q, r and s terms of a topic add up to (alpha + n_dk)(beta + n_wk) / (n_k + V beta). |
| `LdaBuckets.SelectMass` | apps/lda/src/fast_doc_sampler.cpp:219-224 | Skipping the topics with zero count loses no r mass. |
| `LdaSampler.BucketsMakeConditional` | apps/lda/src/fast_doc_sampler.cpp:124-151 | The darts of topic k have total length equal to the full Gibbs conditional with the current token taken out. |
| `LdaSampler.FastDocSampler.ComputeAuxVariables` | apps/lda/src/fast_doc_sampler.cpp:204-226 | Sums, coefficients and the sorted index of non-zero topics, from the counts. |
| `LdaSampler.FastDocSampler.MoveToken` | apps/lda/src/fast_doc_sampler.cpp:101-122 | Taking a token out, or putting one in, leaves the sums, all coefficients and the sorted index equal to what a recomputation would give. |
| `LdaSampler.FastDocSampler.Sample` | apps/lda/src/fast_doc_sampler.cpp:228-281 | The topic returned is that of a term the dart lands in, among all terms laid end to end, whenever these have positive mass; the overflow branches of q and r are unreachable; without positive mass, which non-negative terms rule out, it is the last topic. |
| `LdaDocument.FillQ` | apps/lda/src/fast_doc_sampler.cpp:124-148 | The q bucket, with the current token taken out of its word's row. |
| `LdaDocument.InWordIsOthers` | apps/lda/src/fast_doc_sampler.cpp:135-146 | If a word's row gives for every topic the number of its tokens, the current one included, what the sampler uses for topic k is the number of the other tokens of that word with topic k. |
| `LdaDocument.QNonNegativeIff` | apps/lda/src/fast_doc_sampler.cpp:135-146 | No q term is negative if and only if no count of the word's row is, the current token taken out. |
| `LdaDocument.StaleRowGoesNegative` | src/petuum_ps_common/storage/sorted_vector_map_row.hpp:384-443 | A copy that lacks a topic, as one does that was inserted past a racing increment, gets an entry of -1 from the matching decrement and from then on a negative q term, for any counts and any current token. |
| `LdaSampler.LineIs` | apps/lda/src/fast_doc_sampler.cpp:204-226 | Coefficients and index are determined by the counts, so the line the dart is thrown at is a function of the counts and the word's row. |
| `LdaDocument.SampleDraws` | apps/lda/src/fast_doc_sampler.cpp:124-151 | Put together, on that line: the dart lies in a term of the topic returned, any term it lies strictly inside is of that topic, and the terms of every topic k have total length (alpha + n_dk)(beta + n_wk) / (n_k + V beta). |
| `LdaDocument.DrawTopic` | apps/lda/src/fast_doc_sampler.cpp:124-152 | For any row the topic is that of a term of the line the dart hits, or the last one if there is no mass; for every row without negative counts it is drawn from the full conditional. |
| `LdaDocument.SampleToken` | apps/lda/src/fast_doc_sampler.cpp:94-190 | The new topic is so drawn for the counts without this token, from the full conditional if the word's row has no negative counts; in any case everything is afterwards as if recomputed. |
| `LdaDocument.ExactRowDraws` | apps/lda/src/fast_doc_sampler.cpp:85-191 | If besides the summary counts the tokens of the corpus, the line is cut into lengths (alpha + n_dk)(beta + n_wk) / (n_k + V beta) with all three counts taken over the other tokens of the document and of the corpus, and the dart u times the length of the line lies in a piece of the topic drawn. |
| `LdaDocument.CountedAddsUp` | apps/lda/src/fast_doc_sampler.cpp:195-202 | A document's topic counts sum to its number of tokens. |
| `LdaDocument.SampleOneDoc` | apps/lda/src/fast_doc_sampler.cpp:85-191 | Every token whose word's row has no negative counts is redrawn from the full conditional given the current topics of all others; if the summary counts the corpus and the row counts its word exactly at that moment, it is the collapsed Gibbs conditional of the corpus without that token. For any rows, words stay, counts still match the document and its length, the summary changes by what the document does, and the auxiliary variables are as if recomputed. |
| `Correlation.SparseVector.AddWithSorting` | strads/ds/spmat.hpp:56-84 | The column stays strictly sorted with paired values, and exactly one row changes. |
| `Correlation.Sums` | strads/scheduler/getcorr.cpp:61-69 | Sum and sum of squares of the dense column. |
| `Correlation.MergeDot` | strads/scheduler/getcorr.cpp:71-98 | The merge of two sorted columns is their dense dot product. |
| `Correlation.CoefficientAtMostOne` | strads/scheduler/getcorr.cpp:106-125 | Cauchy-Schwarz: the squared numerator never exceeds the squared divisor, and neither root is of a negative number. |
| `Correlation.CovarianceSymmetric` | strads/scheduler/getcorr.cpp:76-98 | Interference between two columns does not depend on their order. |
| `Correlation.CoefficientOk` | strads/scheduler/getcorr.cpp:106-125 | The coefficient is the one number not negative whose square times (n sum(xx) - sum(x)^2)(n sum(yy) - sum(y)^2) is (n sum(xy) - sum(x) sum(y))^2, of the dense columns; it lies between zero and one and does not depend on their order. |
| `Correlation.GetCorrelation` | strads/scheduler/getcorr.cpp:36-125 | The merge loop, the two sums, the roots and the division together return that number. |
| `WeightedSampling.WeightedSampler.UpdateWeight` | strads/scheduler/scheduler.hpp:286-344 | A task that was changed has the absolute value of its last change, every other its old weight, and the total is their sum. |
| `WeightedSampling.Lookup` | strads/scheduler/scheduler.hpp:191-218 | The samples are exactly the first tasks whose cumulative weight reaches one of the points, without repetition, and every point is used. |
| `WeightedSampling.CumSteps` | strads/scheduler/scheduler.hpp:191-218 | Each task adds its own weight and the base weight to what the tasks before it reach. |
| `WeightedSampling.Sort` | strads/scheduler/scheduler.hpp:234-282 | A rearrangement by descending weight, and so with those of weight zero last. |
| `WeightedSampling.WeightedSampler.DoSampling` | strads/scheduler/scheduler.hpp:159-231 | Inverse-CDF lookup of the sorted random points, heaviest first; asking for no sample behaves as asking for one. |
| `Interference.CheckInterference` | strads/scheduler/scheduler.hpp:367-464 | A greedy maximal independent set for the correlation of the sampled columns against the threshold: input order kept, no two survivors clash in either order, each dropped sample clashes with an earlier survivor. |
| `Interference.ClashSymmetric` | strads/scheduler/scheduler.hpp:434-446 | Whether two tasks clash does not depend on their order. |
| `Interference.ClashIff` | strads/scheduler/scheduler.hpp:434-446 | Two tasks clash exactly when the squared covariance of their dense columns reaches the square of the threshold times both variances, or the threshold is not positive. |
| `NameNode.NameNodeThread.HaveCreatedAllTables` | src/petuum_ps/server/name_node_thread.cpp:165-178 | True exactly when every client has been answered for every table. |
| `NameNode.NameNodeThread.HandleCreateTable` | src/petuum_ps/server/name_node_thread.cpp:212-241 | The asker, and nobody else, is told if and only if as many servers have replied as there are, replies being counted from none at the first request; otherwise it waits; servers are told at the first request only. |
| `NameNode.NameNodeThread.HandleCreateTableReply` | src/petuum_ps/server/name_node_thread.cpp:243-265 | One more reply is counted; if it is the last, exactly those who have asked are told, in the order they asked, and otherwise nobody; the announcement is made exactly once, at the moment every client has been answered for every table. |
| `NameNode.NameNodeThread.NobodyEarlyNobodyLeft` | src/petuum_ps/server/name_node_thread.cpp:212-265 | Between any two calls: nobody has been answered for a table before all servers have replied, and from then on everybody who has asked. |

## Left out

- The network layer and ZMQ: channels are reliable and FIFO per sender and receiver, which is an assumption.
- Message field accessors, statistics, thread start-up, handshakes, barriers and shutdown: wiring.
- Snapshots, resume, LevelDB, files and flags: external storage and configuration.
- GetAsync, WaitPendingAsnycGet and the request a missing row causes: blocking and waking; what a read may return is modelled, when it returns is not.
- The per-row numbers and their accumulation: rows are multisets of updates, which any commutative accumulation respects.
- Overflow of the 32-bit clocks and of the reader's 32-bit offset: clocks and offsets are unbounded.
- CallBackSubs::Subscribe and the subscription count of ServerRow: a row has subscribers exactly when its set of them is not empty, which would only add easy members.
- `PushStream.RecordBuff` is a value held in the packer's map; aliasing of a buffer and its message is not modelled.
- MsgTracker, DiskStreamReader, WorkloadManager and getcorr_pair_sparsem: not used by the modelled code, or without a property that holds as documented.
- LDA: rounding, the random generator, likelihoods, and the updates sent to the word-topic and summary tables; the word's row and the random number of each token are inputs.
- LdaDocument.SampleOneDoc: needs every topic's count to stay above the document's own tokens of it minus V times beta; below that the code divides by zero or by a negative number.
- Correlation.GetCorrelation: takes the square root as an input of which only its defining property is used; the divisor must not be zero, as the code asserts.
- Interference.CheckInterference: needs at least one sample, because the code reads the first without looking; the build options under which weights also decide a clash are off.
- The STRADS coordinator and worker loops, range partitioning and user handlers.
