/** CreateSendServerPushRowMsgs: all dirty rows of all tables, to every subscriber's bg.

    Rows are visited once. When a bg's buffer is full the visit is interrupted in the middle of a
    row, that bg's message is sent, and the visit resumes at the client that failed. */
module PushPacker {
  import opened PsTypes
  import opened WireBytes
  import opened RowWire
  import opened PushStream

  datatype RowState = RowState(id: int, data: seq<byte>, dirty: bool, subs: set<nat>)

  datatype ServerTable = ServerTable(id: int, rows: seq<RowState>)

  datatype BgId = BgId(client: nat, part: nat)

  /** Which bg of its client a row belongs to (in the code, its id modulo their number). */
  type Partition = int -> nat

  /** Ids and sizes fit the wire, and one record fits a fresh buffer. */
  ghost predicate Packable(rows: seq<RowState>, capacity: nat) {
    forall row | row in rows :: Fits(RowItem(row.id, row.data)) && 4 + 12 + |row.data| <= capacity
  }

  /** Bg `bg` is to be sent `row`: it is dirty, its client subscribes, it is of that partition. */
  ghost predicate Wants(row: RowState, bg: BgId, part: Partition) {
    row.dirty && bg.client in row.subs && bg.part == part(row.id)
  }

  /** What bg `bg` is to be sent of the rows of table `t`. */
  ghost function Due(rows: seq<RowState>, t: int, part: Partition, bg: BgId): seq<PushedRow> {
    if rows == [] then []
    else
      var row := rows[|rows| - 1];
      Due(rows[..|rows| - 1], t, part, bg) +
      if Wants(row, bg, part) then [PushedRow(t, row.id, row.data)] else []
  }

  ghost function DueAll(tables: seq<ServerTable>, part: Partition, bg: BgId): seq<PushedRow> {
    if tables == [] then []
    else
      var table := tables[|tables| - 1];
      DueAll(tables[..|tables| - 1], part, bg) + Due(table.rows, table.id, part, bg)
  }

  /** The rows before row `r`, and row `r` for the clients before `c`. */
  ghost function DueUpTo(rows: seq<RowState>, t: int, part: Partition, r: nat, c: nat, bg: BgId): seq<PushedRow>
    requires r <= |rows|
  {
    Due(rows[..r], t, part, bg) +
    if r < |rows| && bg.client < c && Wants(rows[r], bg, part)
    then [PushedRow(t, rows[r].id, rows[r].data)] else []
  }

  /** A row done for all clients is a row done. */
  lemma RowDone(rows: seq<RowState>, t: int, part: Partition, r: nat, c: nat, bg: BgId)
    requires r < |rows| && (bg.client < c || !rows[r].dirty || rows[r].subs == {})
    ensures DueUpTo(rows, t, part, r + 1, 0, bg) == DueUpTo(rows, t, part, r, c, bg)
  {
    assert rows[..r + 1][..r] == rows[..r];
  }

  /** The flags of the first `n` rows after they were visited. */
  ghost predicate Cleaned(was: seq<RowState>, rows: seq<RowState>, n: nat) {
    && |rows| == |was|
    && forall i | 0 <= i < |was| ::
         rows[i] == if i < n && was[i].subs != {} then was[i].(dirty := false) else was[i]
  }

  type Streams = map<BgId, Stream>
  type Traces = map<BgId, Trace>
  type Told = map<BgId, seq<PushedRow>>

  /** The stream of `bg` is good, and `told` is what it has said. */
  ghost predicate StreamAt(streams: Streams, traces: Traces, told: Told, capacity: nat, bg: BgId) {
    && bg in streams && bg in traces && bg in told
    && StreamOk(streams[bg], traces[bg], capacity) && told[bg] == Said(traces[bg])
  }

  ghost predicate AllOk(streams: Streams, traces: Traces, told: Told, capacity: nat) {
    && streams.Keys == traces.Keys == told.Keys
    && forall bg {:trigger StreamAt(streams, traces, told, capacity, bg)} | bg in streams :: StreamAt(streams, traces, told, capacity, bg)
  }

  lemma OneOk(streams: Streams, traces: Traces, told: Told, capacity: nat, bg: BgId, st: Stream, tr: Trace)
    requires AllOk(streams, traces, told, capacity) && bg in streams && StreamOk(st, tr, capacity)
    ensures AllOk(streams[bg := st], traces[bg := tr], told[bg := Said(tr)], capacity)
  {
    forall x | x in streams ensures StreamAt(streams[bg := st], traces[bg := tr], told[bg := Said(tr)], capacity, x) {
      if x != bg {
        assert StreamAt(streams, traces, told, capacity, x);
      }
    }
  }

  ghost predicate InsideAt(traces: Traces, t: int, bg: BgId) {
    bg in traces && Inside(traces[bg], t)
  }

  ghost predicate AllInside(traces: Traces, t: int) {
    forall bg {:trigger InsideAt(traces, t, bg)} | bg in traces :: InsideAt(traces, t, bg)
  }

  lemma OneInside(traces: Traces, t: int, bg: BgId, tr: Trace)
    requires AllInside(traces, t) && bg in traces && Inside(tr, t)
    ensures AllInside(traces[bg := tr], t)
  {
    forall x | x in traces ensures InsideAt(traces[bg := tr], t, x) {
      assert InsideAt(traces, t, x);
    }
  }

  ghost predicate BetweenAt(traces: Traces, bg: BgId) {
    bg in traces && Between(traces[bg])
  }

  ghost predicate AllBetween(traces: Traces) {
    forall bg {:trigger BetweenAt(traces, bg)} | bg in traces :: BetweenAt(traces, bg)
  }

  ghost predicate NewAt(traces: Traces, bg: BgId) {
    bg in traces && traces[bg].script == []
  }

  ghost predicate AllNew(traces: Traces) {
    forall bg {:trigger NewAt(traces, bg)} | bg in traces :: NewAt(traces, bg)
  }

  // ------------------------------------------------ where the visit stands

  ghost predicate PositionAt(told: Told, base: Told, was: seq<RowState>, t: int, part: Partition, r: nat, c: nat, bg: BgId) {
    bg in told && bg in base && r <= |was| && told[bg] == base[bg] + DueUpTo(was, t, part, r, c, bg)
  }

  /** Beyond what they were told before, every bg has been told all up to row `r`, client `c`. */
  ghost predicate Position(told: Told, base: Told, was: seq<RowState>, t: int, part: Partition, r: nat, c: nat) {
    forall bg {:trigger PositionAt(told, base, was, t, part, r, c, bg)} | bg in told :: PositionAt(told, base, was, t, part, r, c, bg)
  }

  lemma SkipClient(told: Told, base: Told, was: seq<RowState>, t: int, part: Partition, r: nat, c: nat)
    requires Position(told, base, was, t, part, r, c) && r < |was| && c !in was[r].subs
    ensures Position(told, base, was, t, part, r, c + 1)
  {
    forall bg | bg in told ensures PositionAt(told, base, was, t, part, r, c + 1, bg) {
      assert PositionAt(told, base, was, t, part, r, c, bg);
    }
  }

  lemma TookRow(told: Told, told': Told, base: Told, was: seq<RowState>, t: int, part: Partition, r: nat, bg: BgId)
    requires Position(told, base, was, t, part, r, bg.client) && r < |was| && was[r].dirty
    requires bg in told && bg.client in was[r].subs && bg.part == part(was[r].id)
    requires told' == told[bg := told[bg] + [PushedRow(t, was[r].id, was[r].data)]]
    ensures Position(told', base, was, t, part, r, bg.client + 1)
  {
    forall x | x in told' ensures PositionAt(told', base, was, t, part, r, bg.client + 1, x) {
      assert PositionAt(told, base, was, t, part, r, bg.client, x);
    }
  }

  /** Row `r` is done for every client; on to the next. */
  lemma NextRow(told: Told, base: Told, was: seq<RowState>, t: int, part: Partition, r: nat, c: nat)
    requires Position(told, base, was, t, part, r, c) && r < |was|
    requires (forall bg | bg in told :: bg.client < c) || !was[r].dirty || was[r].subs == {}
    ensures Position(told, base, was, t, part, r + 1, 0)
  {
    forall bg | bg in told ensures PositionAt(told, base, was, t, part, r + 1, 0, bg) {
      assert PositionAt(told, base, was, t, part, r, c, bg);
      RowDone(was, t, part, r, c, bg);
    }
  }

  lemma AtStart(told: Told, was: seq<RowState>, t: int, part: Partition)
    ensures Position(told, told, was, t, part, 0, 0)
  {
    forall bg | bg in told ensures PositionAt(told, told, was, t, part, 0, 0, bg) {
    }
  }

  lemma AtEnd(told: Told, base: Told, was: seq<RowState>, t: int, part: Partition)
    requires Position(told, base, was, t, part, |was|, 0) && told.Keys == base.Keys
    ensures told == ToldMore(base, was, t, part)
  {
    assert was[..|was|] == was;
    forall bg | bg in told ensures told[bg] == base[bg] + Due(was, t, part, bg) {
      assert PositionAt(told, base, was, t, part, |was|, 0, bg);
    }
  }

  ghost function ToldMore(base: Told, rows: seq<RowState>, t: int, part: Partition): Told {
    map bg | bg in base :: base[bg] + Due(rows, t, part, bg)
  }

  /** What the bgs `bgs` are to be told in all. */
  ghost function ToldAll(bgs: set<BgId>, tables: seq<ServerTable>, part: Partition): Told {
    map bg | bg in bgs :: DueAll(tables, part, bg)
  }

  lemma ToldNext(bgs: set<BgId>, tables: seq<ServerTable>, table: ServerTable, part: Partition)
    ensures ToldMore(ToldAll(bgs, tables, part), table.rows, table.id, part) == ToldAll(bgs, tables + [table], part)
  {
    assert (tables + [table])[..|tables|] == tables;
  }

  // ------------------------------------------------ opening and closing a table

  /** Bgs before (c, p) have had the table opened (or closed), the others not yet. */
  ghost predicate PhaseAt(traces: Traces, t: int, opening: bool, c: nat, p: nat, bg: BgId) {
    var done := bg.client < c || (bg.client == c && bg.part < p);
    if done == opening then InsideAt(traces, t, bg) else BetweenAt(traces, bg)
  }

  ghost predicate Phase(traces: Traces, t: int, opening: bool, c: nat, p: nat) {
    forall bg {:trigger PhaseAt(traces, t, opening, c, p, bg)} | bg in traces :: PhaseAt(traces, t, opening, c, p, bg)
  }

  lemma PhaseStep(traces: Traces, traces': Traces, t: int, opening: bool, bg: BgId)
    requires Phase(traces, t, opening, bg.client, bg.part) && bg in traces && bg in traces' && traces' == traces[bg := traces'[bg]]
    requires if opening then InsideAt(traces', t, bg) else BetweenAt(traces', bg)
    ensures Phase(traces', t, opening, bg.client, bg.part + 1)
  {
    forall x | x in traces' ensures PhaseAt(traces', t, opening, bg.client, bg.part + 1, x) {
      assert PhaseAt(traces, t, opening, bg.client, bg.part, x);
    }
  }

  lemma PhaseNext(traces: Traces, t: int, opening: bool, c: nat, numBgs: nat)
    requires Phase(traces, t, opening, c, numBgs) && forall bg | bg in traces :: bg.part < numBgs
    ensures Phase(traces, t, opening, c + 1, 0)
  {
    forall x | x in traces ensures PhaseAt(traces, t, opening, c + 1, 0, x) {
      assert PhaseAt(traces, t, opening, c, numBgs, x);
    }
  }

  lemma PhaseFirst(traces: Traces, t: int, opening: bool)
    requires if opening then AllBetween(traces) else AllInside(traces, t)
    ensures Phase(traces, t, opening, 0, 0)
  {
    forall x | x in traces ensures PhaseAt(traces, t, opening, 0, 0, x) {
      assert if opening then BetweenAt(traces, x) else InsideAt(traces, t, x);
    }
  }

  lemma PhaseLast(traces: Traces, t: int, opening: bool, c: nat)
    requires Phase(traces, t, opening, c, 0) && forall bg | bg in traces :: bg.client < c
    ensures if opening then AllInside(traces, t) else AllBetween(traces)
  {
    forall x | x in traces ensures if opening then InsideAt(traces, t, x) else BetweenAt(traces, x) {
      assert PhaseAt(traces, t, opening, c, 0, x);
    }
  }

  // ------------------------------------------------ the packer

  class Packer {
    const numClients: nat
    const numBgs: nat
    const part: Partition
    const capacity: nat
    var streams: Streams
    var rows: seq<RowState>
    var rowIter: nat

    ghost var traces: Traces
    ghost var told: Told

    ghost predicate IsBg(bg: BgId) {
      bg.client < numClients && bg.part < numBgs
    }

    ghost predicate Valid()
      reads this
    {
      && (forall id :: part(id) < numBgs)
      && (forall bg :: bg in streams <==> IsBg(bg))
      && AllOk(streams, traces, told, capacity)
    }

    /** A message for every bg; nothing is known of what its memory holds. */
    constructor (clients: nat, bgs: nat, partition: Partition, size: nat, memory: BgId -> seq<byte>)
      requires (forall id :: partition(id) < bgs) && forall bg :: |memory(bg)| == size
      ensures Valid() && numClients == clients && numBgs == bgs && part == partition && capacity == size
      ensures AllNew(traces) && told == ToldAll(streams.Keys, [], part)
    {
      numClients, numBgs, part, capacity := clients, bgs, partition, size;
      streams := map c: nat, p: nat | c < clients && p < bgs :: BgId(c, p) := Stream(RecordBuff(memory(BgId(c, p)), 0), []);
      traces := map c: nat, p: nat | c < clients && p < bgs :: BgId(c, p) := Trace([], []);
      told := map c: nat, p: nat | c < clients && p < bgs :: BgId(c, p) := [];
      rows, rowIter := [], 0;
      new;
      forall bg | bg in streams ensures StreamAt(streams, traces, told, capacity, bg) {
        assert bg == BgId(bg.client, bg.part);
      }
    }

    /** One append to one buffer: the whole record, or nothing because it does not fit. */
    method TryRow(bg: BgId, id: int, data: seq<byte>, t: int) returns (ok: bool)
      requires Valid() && AllInside(traces, t) && bg in streams && Fits(RowItem(id, data))
      modifies this`streams, this`traces, this`told
      ensures Valid() && AllInside(traces, t)
      ensures ok <==> bg in old(traces) && Size(old(traces)[bg].script) + 12 + |data| <= capacity
      ensures ok ==> bg in old(told) && told == old(told)[bg := old(told)[bg] + [PushedRow(t, id, data)]]
      ensures !ok ==> traces == old(traces) && told == old(told)
    {
      assert StreamAt(streams, traces, told, capacity, bg) && InsideAt(traces, t, bg);
      PutRowTo(streams[bg], traces[bg], t, id, data, capacity);
      var put := PutRow(streams[bg].buff, id, data);
      ok := put.Some?;
      if ok {
        ghost var tr := RowTrace(traces[bg], id, data);
        OneOk(streams, traces, told, capacity, bg, streams[bg].(buff := put.value), tr);
        OneInside(traces, t, bg, tr);
        streams := streams[bg := streams[bg].(buff := put.value)];
        traces := traces[bg := tr];
        told := told[bg := Said(tr)];
      }
    }

    ghost predicate HasRoom(traces: Traces, row: RowState, client: nat) {
      var bg := BgId(client, part(row.id));
      bg in traces && Size(traces[bg].script) + 12 + |row.data| <= capacity
    }

    /** One client's turn: its bg for this row takes the row, if it subscribes and has room. */
    method OfferRow(row: RowState, client: nat, t: int, ghost base: Told, ghost was: seq<RowState>, ghost r: nat)
      returns (ok: bool)
      requires Valid() && AllInside(traces, t) && client < numClients && Fits(RowItem(row.id, row.data))
      requires r < |was| && was[r].dirty && row == was[r].(dirty := row.dirty)
      requires Position(told, base, was, t, part, r, client)
      modifies this`streams, this`traces, this`told
      ensures Valid() && AllInside(traces, t)
      ensures ok ==> Position(told, base, was, t, part, r, client + 1)
      ensures !ok ==> traces == old(traces) && told == old(told) && client in row.subs && !HasRoom(traces, row, client)
    {
      if client !in row.subs {
        SkipClient(told, base, was, t, part, r, client);
        return true;
      }
      var bg := BgId(client, part(row.id));
      assert IsBg(bg) && bg in streams;
      ghost var before := told;
      ok := TryRow(bg, row.id, row.data, t);
      if ok {
        TookRow(before, told, base, was, t, part, r, bg);
      }
    }

    /** CallBackSubs::AppendRowToBuffs, from client `from`; stops at a buffer that is full. */
    method AppendRowToBuffs(row: RowState, from: nat, t: int, ghost base: Told, ghost was: seq<RowState>, ghost r: nat)
      returns (failed: nat)
      requires Valid() && AllInside(traces, t) && from <= numClients && Fits(RowItem(row.id, row.data))
      requires r < |was| && was[r].dirty && row == was[r].(dirty := row.dirty)
      requires Position(told, base, was, t, part, r, from)
      modifies this`streams, this`traces, this`told
      ensures Valid() && AllInside(traces, t) && from <= failed <= numClients
      ensures Position(told, base, was, t, part, r, failed)
      ensures failed < numClients ==> failed in row.subs
      ensures from < numClients && HasRoom(old(traces), row, from) ==> failed > from
    {
      failed := from;
      while failed < numClients
        invariant Valid() && AllInside(traces, t) && from <= failed <= numClients
        invariant Position(told, base, was, t, part, r, failed)
        invariant failed == from ==> traces == old(traces)
        decreases numClients - failed
      {
        var ok := OfferRow(row, failed, t, base, was, r);
        if !ok {
          return;
        }
        failed := failed + 1;
      }
    }

    /** The visit was stopped by client `c`'s buffer for row `rowIter`. */
    ghost predicate Interrupted(c: nat, was: seq<RowState>)
      reads this`rowIter, this`rows
    {
      rowIter < |was| && c < numClients && was[rowIter].dirty && c in was[rowIter].subs && Cleaned(was, rows, rowIter + 1)
    }

    /** Row `rowIter` for the clients from `from` on, and then on to the next row. */
    method FinishRow(from: nat, t: int, ghost base: Told, ghost was: seq<RowState>) returns (failed: nat)
      requires Valid() && AllInside(traces, t) && Packable(was, capacity) && rowIter < |was| && was[rowIter].dirty
      requires from <= numClients && Cleaned(was, rows, rowIter + 1) && Position(told, base, was, t, part, rowIter, from)
      modifies this`streams, this`traces, this`told, this`rowIter
      ensures Valid() && AllInside(traces, t) && from <= failed <= numClients
      ensures failed == numClients ==> rowIter == old(rowIter) + 1 && Position(told, base, was, t, part, rowIter, 0)
      ensures failed < numClients ==>
                rowIter == old(rowIter) && Interrupted(failed, was) && Position(told, base, was, t, part, rowIter, failed)
      ensures from < numClients && HasRoom(old(traces), was[old(rowIter)], from) ==> failed > from
    {
      assert was[rowIter] in was;
      failed := AppendRowToBuffs(rows[rowIter], from, t, base, was, rowIter);
      if failed == numClients {
        NextRow(told, base, was, t, part, rowIter, failed);
        rowIter := rowIter + 1;
      }
    }

    /** AppendTableToBuffs. The visit stands at row `rowIter`; with `resume`, in the middle of it. */
    method AppendTableToBuffs(from: nat, t: int, resume: bool, ghost base: Told, ghost was: seq<RowState>)
      returns (ok: bool, failed: nat)
      requires Valid() && AllInside(traces, t) && Packable(was, capacity) && rowIter <= |was|
      requires Position(told, base, was, t, part, rowIter, from)
      requires if resume then Interrupted(from, was) else from == 0 && Cleaned(was, rows, rowIter)
      modifies this`streams, this`traces, this`told, this`rows, this`rowIter
      ensures Valid() && AllInside(traces, t) && rowIter <= |was|
      ensures ok ==> rowIter == |was| && Cleaned(was, rows, |was|) && Position(told, base, was, t, part, rowIter, 0)
      ensures !ok ==> Interrupted(failed, was) && Position(told, base, was, t, part, rowIter, failed)
      ensures !ok && resume && HasRoom(old(traces), was[old(rowIter)], from) ==>
                rowIter > old(rowIter) || (rowIter == old(rowIter) && failed > from)
    {
      failed := from;
      if resume {
        failed := FinishRow(from, t, base, was);
        if failed < numClients {
          return false, failed;
        }
      }
      while rowIter < |rows|
        invariant Valid() && AllInside(traces, t) && rowIter <= |was| && Cleaned(was, rows, rowIter)
        invariant Position(told, base, was, t, part, rowIter, 0)
        invariant resume ==> rowIter > old(rowIter)
        decreases |was| - rowIter
      {
        assert rows[rowIter] == was[rowIter];
        if rows[rowIter].subs != {} && rows[rowIter].dirty {
          rows := rows[rowIter := rows[rowIter].(dirty := false)];
          failed := FinishRow(0, t, base, was);
          if failed < numClients {
            return false, failed;
          }
        } else {
          NextRow(told, base, was, t, part, rowIter, 0);
          rowIter := rowIter + 1;
        }
      }
      ok := true;
    }

    /** The failed buffer is sent and reopened, which makes room for the row that failed. */
    method SendFull(failed: nat, row: RowState, t: int)
      requires Valid() && AllInside(traces, t) && failed < numClients && Fits(TableItem(t)) && 4 + 12 + |row.data| <= capacity
      modifies this`streams, this`traces, this`told
      ensures Valid() && AllInside(traces, t) && HasRoom(traces, row, failed) && told == old(told)
    {
      var bg := BgId(failed, part(row.id));
      assert IsBg(bg) && StreamAt(streams, traces, told, capacity, bg) && InsideAt(traces, t, bg);
      ReopenOk(streams[bg], traces[bg], t, capacity);
      ghost var tr := ReopenTrace(traces[bg], t);
      OneOk(streams, traces, told, capacity, bg, Reopen(streams[bg], t), tr);
      OneInside(traces, t, bg, tr);
      streams := streams[bg := Reopen(streams[bg], t)];
      traces := traces[bg := tr];
      told := told[bg := Said(tr)];
    }

    /** One turn of the retry loop. */
    method Resume(from: nat, t: int, ghost base: Told, ghost was: seq<RowState>) returns (ok: bool, failed: nat)
      requires Valid() && AllInside(traces, t) && Fits(TableItem(t)) && Packable(was, capacity)
      requires Interrupted(from, was) && Position(told, base, was, t, part, rowIter, from)
      modifies this`streams, this`traces, this`told, this`rows, this`rowIter
      ensures Valid() && AllInside(traces, t) && rowIter <= |was|
      ensures ok ==> rowIter == |was| && Cleaned(was, rows, |was|) && Position(told, base, was, t, part, rowIter, 0)
      ensures !ok ==> Interrupted(failed, was) && Position(told, base, was, t, part, rowIter, failed)
      ensures rowIter > old(rowIter) || (!ok && rowIter == old(rowIter) && failed > from)
    {
      assert was[rowIter] in was;
      SendFull(from, rows[rowIter], t);
      ok, failed := AppendTableToBuffs(from, t, true, base, was);
    }

    /** The rows of a table are packed: the first visit and every resumption of it. Terminates
        because each resumption gets past the client it was stopped by. */
    method PackRows(t: int)
      requires Valid() && AllInside(traces, t) && Fits(TableItem(t)) && Packable(rows, capacity) && capacity >= 4
      modifies this`streams, this`traces, this`told, this`rows, this`rowIter
      ensures Valid() && AllInside(traces, t) && Cleaned(old(rows), rows, |old(rows)|)
      ensures told == ToldMore(old(told), old(rows), t, part)
    {
      ghost var was, base := rows, told;
      rowIter := 0;
      AtStart(told, was, t, part);
      var ok, failed := AppendTableToBuffs(0, t, false, base, was);
      while !ok
        invariant Valid() && AllInside(traces, t) && rowIter <= |was|
        invariant ok ==> rowIter == |was| && Cleaned(was, rows, |was|) && Position(told, base, was, t, part, rowIter, 0)
        invariant !ok ==> Interrupted(failed, was) && Position(told, base, was, t, part, rowIter, failed)
        decreases |was| - rowIter, if ok then 0 else numClients - failed
      {
        ok, failed := Resume(failed, t, base, was);
      }
      assert forall bg :: bg in base <==> IsBg(bg);
      AtEnd(told, base, was, t, part);
    }

    // ---------------------------------------------- tables

    /** The id of a table goes into one buffer, after sending it if it has no room. */
    method OpenOne(bg: BgId, t: int)
      requires Valid() && BetweenAt(traces, bg) && Fits(TableItem(t)) && capacity >= 4
      modifies this`streams, this`traces, this`told
      ensures Valid() && InsideAt(traces, t, bg) && traces == old(traces)[bg := traces[bg]] && told == old(told)
    {
      assert StreamAt(streams, traces, told, capacity, bg);
      PutTableOk(streams[bg], traces[bg], t, capacity);
      ghost var tr := TableTrace(traces[bg], t, capacity);
      OneOk(streams, traces, told, capacity, bg, PutTable(streams[bg], t), tr);
      streams := streams[bg := PutTable(streams[bg], t)];
      traces := traces[bg := tr];
      told := told[bg := Said(tr)];
    }

    /** The separator goes into one buffer, or the buffer goes out. */
    method CloseOne(bg: BgId, t: int)
      requires Valid() && InsideAt(traces, t, bg)
      modifies this`streams, this`traces, this`told
      ensures Valid() && BetweenAt(traces, bg) && traces == old(traces)[bg := traces[bg]] && told == old(told)
    {
      assert StreamAt(streams, traces, told, capacity, bg);
      SeparateOk(streams[bg], traces[bg], t, capacity);
      ghost var tr := SeparateTrace(traces[bg], capacity);
      OneOk(streams, traces, told, capacity, bg, Separate(streams[bg]), tr);
      streams := streams[bg := Separate(streams[bg])];
      traces := traces[bg := tr];
      told := told[bg := Said(tr)];
    }

    /** The bgs of one client, one after the other. */
    method MarkClient(c: nat, t: int, opening: bool)
      requires Valid() && c < numClients && Phase(traces, t, opening, c, 0) && Fits(TableItem(t)) && capacity >= 4
      modifies this`streams, this`traces, this`told
      ensures Valid() && Phase(traces, t, opening, c + 1, 0) && told == old(told)
    {
      var p := 0;
      while p < numBgs
        invariant p <= numBgs && Valid() && Phase(traces, t, opening, c, p) && told == old(told)
      {
        var bg := BgId(c, p);
        ghost var before := traces;
        assert IsBg(bg) && PhaseAt(traces, t, opening, c, p, bg);
        if opening {
          OpenOne(bg, t);
        } else {
          CloseOne(bg, t);
        }
        PhaseStep(before, traces, t, opening, bg);
        p := p + 1;
      }
      PhaseNext(traces, t, opening, c, numBgs);
    }

    /** The table's id, or the separator after it, to every bg of every client. */
    method MarkTable(t: int, opening: bool)
      requires Valid() && (if opening then AllBetween(traces) else AllInside(traces, t)) && Fits(TableItem(t)) && capacity >= 4
      modifies this`streams, this`traces, this`told
      ensures Valid() && (if opening then AllInside(traces, t) else AllBetween(traces)) && told == old(told)
    {
      PhaseFirst(traces, t, opening);
      var c := 0;
      while c < numClients
        invariant c <= numClients && Valid() && Phase(traces, t, opening, c, 0) && told == old(told)
      {
        MarkClient(c, t, opening);
        c := c + 1;
      }
      PhaseLast(traces, t, opening, c);
    }

    /** Table `i`: its id everywhere, its rows, and a separator unless it is the last. */
    method PackTable(tables: seq<ServerTable>, i: nat) returns (after: ServerTable)
      requires Valid() && i < |tables| && PackableTable(tables[i], capacity)
      requires AllBetween(traces) && told == ToldAll(streams.Keys, tables[..i], part)
      modifies this`streams, this`traces, this`told, this`rows, this`rowIter
      ensures Valid() && told == ToldAll(streams.Keys, tables[..i + 1], part) && streams.Keys == old(streams.Keys)
      ensures if i + 1 < |tables| then AllBetween(traces) else AllInside(traces, tables[i].id)
      ensures IsCleaned(tables[i], after)
    {
      ghost var bgs := streams.Keys;
      var table := tables[i];
      MarkTable(table.id, true);
      rows := table.rows;
      PackRows(table.id);
      after := ServerTable(table.id, rows);
      ToldNext(bgs, tables[..i], table, part);
      assert tables[..i + 1] == tables[..i] + [table];
      if i + 1 < |tables| {
        MarkTable(table.id, false);
      }
      assert forall bg :: bg in bgs <==> IsBg(bg);
      assert streams.Keys == bgs;
    }

    /** Every table in turn, with separators between them. */
    method PackTables(tables: seq<ServerTable>) returns (after: seq<ServerTable>)
      requires Valid() && AllNew(traces) && told == ToldAll(streams.Keys, [], part)
      requires forall i | 0 <= i < |tables| :: PackableTable(tables[i], capacity)
      modifies this`streams, this`traces, this`told, this`rows, this`rowIter
      ensures Valid() && told == ToldAll(streams.Keys, tables, part)
      ensures if tables == [] then AllNew(traces) else AllInside(traces, tables[|tables| - 1].id)
      ensures |after| == |tables| && forall i | 0 <= i < |tables| :: IsCleaned(tables[i], after[i])
    {
      after := [];
      NewIsBetween(traces);
      var i := 0;
      while i < |tables|
        invariant |after| == i <= |tables| && Valid() && told == ToldAll(streams.Keys, tables[..i], part)
        invariant i == 0 ==> AllNew(traces)
        invariant i < |tables| ==> AllBetween(traces)
        invariant 0 < i == |tables| ==> AllInside(traces, tables[|tables| - 1].id)
        invariant forall j | 0 <= j < i :: IsCleaned(tables[j], after[j])
      {
        var table := PackTable(tables, i);
        after := after + [table];
        i := i + 1;
      }
      assert tables[..i] == tables;
    }
  }

  lemma NewIsBetween(traces: Traces)
    requires AllNew(traces)
    ensures AllBetween(traces)
  {
    forall bg | bg in traces ensures BetweenAt(traces, bg) {
      assert NewAt(traces, bg);
    }
  }

  ghost predicate IsCleaned(table: ServerTable, after: ServerTable) {
    after.id == table.id && Cleaned(table.rows, after.rows, |table.rows|)
  }

  ghost predicate PackableTable(table: ServerTable, capacity: nat) {
    Fits(TableItem(table.id)) && capacity >= 4 && Packable(table.rows, capacity)
  }

  /** CreateSendServerPushRowMsgs. Reading the messages sent to a bg yields every dirty row of
      its partition to which its client subscribes, in order, once, under its table; exactly the
      last message carries the clock; and the flags of all rows that anyone subscribes to are clear. */
  method PushRows(clients: nat, bgs: nat, part: Partition, capacity: nat, memory: BgId -> seq<byte>, tables: seq<ServerTable>)
    returns (msgs: map<BgId, seq<Message>>, after: seq<ServerTable>)
    requires (forall id :: part(id) < bgs) && (forall bg :: |memory(bg)| == capacity) && capacity >= 4
    requires forall i | 0 <= i < |tables| :: PackableTable(tables[i], capacity)
    ensures forall bg :: bg in msgs <==> bg.client < clients && bg.part < bgs
    ensures forall bg | bg in msgs :: Delivers(msgs[bg], DueAll(tables, part, bg))
    ensures |after| == |tables| && forall i | 0 <= i < |tables| :: IsCleaned(tables[i], after[i])
  {
    var packer := new Packer(clients, bgs, part, capacity, memory);
    after := packer.PackTables(tables);
    var streams := packer.streams;
    msgs := map bg | bg in streams :: Finish(streams[bg]);
    forall bg | bg in msgs ensures Delivers(msgs[bg], DueAll(tables, part, bg)) {
      assert StreamAt(streams, packer.traces, packer.told, capacity, bg);
      assert tables == [] ==> NewAt(packer.traces, bg);
      assert tables != [] ==> InsideAt(packer.traces, tables[|tables| - 1].id, bg);
      FinishOk(streams[bg], packer.traces[bg], capacity);
    }
    assert forall bg :: bg in streams <==> packer.IsBg(bg);
  }

  /** The receiving side of PushRows: what a bg reads is what it was due. */
  method ReadAll(msgs: seq<Message>, ghost rows: seq<PushedRow>) returns (read: seq<PushedRow>)
    requires Delivers(msgs, rows)
    ensures read == rows
  {
    ghost var parts :| PartsOk(msgs, parts) && Concat(parts) == rows;
    read := [];
    var i := 0;
    while i < |msgs|
      invariant i <= |msgs| && read == Concat(parts[..i])
    {
      var more := ReadRows(msgs[i].data, parts[i]);
      read := read + more;
      assert parts[..i + 1] == parts[..i] + [parts[i]];
      ConcatMore(parts[..i], parts[i]);
      i := i + 1;
    }
    assert parts[..i] == parts;
  }
}
