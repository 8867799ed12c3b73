/** CreateOpLogMsgs: the messages of one shipment, and what the servers read in them. */
module OpLogMessages {
  import opened PsTypes
  import opened WireBytes
  import opened OpLogLayout
  import opened OpLogWriter

  /** What server `s` gets of a table, and of all tables. A table it has no row of is still there. */
  ghost function Share(table: TableLog, place: Placement, s: nat): TableLog {
    table.(rows := Mine(table.rows, place, s, |table.rows|))
  }

  ghost function Shares(tables: seq<TableLog>, place: Placement, s: nat): seq<TableLog> {
    seq(|tables|, i requires 0 <= i < |tables| => Share(tables[i], place, s))
  }

  lemma SharesFit(tables: seq<TableLog>, place: Placement, s: nat)
    requires TablesFit(tables)
    ensures TablesFit(Shares(tables, place, s))
  {
    var shares := Shares(tables, place, s);
    forall i | 0 <= i < |shares| ensures TableFits(shares[i]) {
      assert TableFits(tables[i]);
      MineFit(tables[i].rows, place, s, |tables[i].rows|, tables[i].updateSize);
      assert AllRowsFit(shares[i].rows, shares[i].updateSize);
    }
  }

  // ------------------------------------------------ each entry goes to its server

  ghost function Times(entries: seq<Entry>, e: Entry): nat {
    multiset(entries)[e]
  }

  lemma TimesAppend(a: seq<Entry>, b: seq<Entry>, e: Entry)
    ensures Times(a + b, e) == Times(a, e) + Times(b, e)
  {
    assert multiset(a + b) == multiset(a) + multiset(b);
  }

  function One(t: int, row: RowLog, e: Entry): nat {
    if Entry(t, row) == e then 1 else 0
  }

  lemma TimesOne(t: int, entries: seq<Entry>, row: RowLog, e: Entry)
    ensures Times(entries + [Entry(t, row)], e) == Times(entries, e) + One(t, row, e)
  {
    TimesAppend(entries, [Entry(t, row)], e);
  }

  /** How often `e` is among the first `k` rows, and among server `s`'s part of them. */
  ghost function InRows(t: int, rows: seq<RowLog>, k: nat, e: Entry): nat
    requires k <= |rows|
  {
    if k == 0 then 0 else InRows(t, rows, k - 1, e) + One(t, rows[k - 1], e)
  }

  lemma {:induction false} CountsRows(t: int, rows: seq<RowLog>, k: nat, e: Entry)
    requires k <= |rows|
    ensures Times(RowEntries(t, rows, k), e) == InRows(t, rows, k, e)
  {
    if k > 0 {
      CountsRows(t, rows, k - 1, e);
      TimesOne(t, RowEntries(t, rows, k - 1), rows[k - 1], e);
    }
  }

  lemma {:induction false} InRowsPrefix(t: int, rows: seq<RowLog>, row: RowLog, j: nat, e: Entry)
    requires j <= |rows|
    ensures InRows(t, rows + [row], j, e) == InRows(t, rows, j, e)
  {
    if j > 0 {
      InRowsPrefix(t, rows, row, j - 1, e);
    }
  }

  lemma {:induction false} MineCounts(rows: seq<RowLog>, place: Placement, s: nat, t: int, k: nat, e: Entry)
    requires k <= |rows|
    ensures var mine := Mine(rows, place, s, k);
      InRows(t, mine, |mine|, e) == if place(e.row.id) == s then InRows(t, rows, k, e) else 0
  {
    if k > 0 {
      MineCounts(rows, place, s, t, k - 1, e);
      InRowsPrefix(t, Mine(rows, place, s, k - 1), rows[k - 1], |Mine(rows, place, s, k - 1)|, e);
    }
  }

  ghost function InTables(tables: seq<TableLog>, i: nat, e: Entry): nat
    requires i <= |tables|
  {
    if i == 0 then 0 else InTables(tables, i - 1, e) + InRows(tables[i - 1].id, tables[i - 1].rows, |tables[i - 1].rows|, e)
  }

  lemma {:induction false} CountsTables(tables: seq<TableLog>, i: nat, e: Entry)
    requires i <= |tables|
    ensures Times(Entries(tables, i), e) == InTables(tables, i, e)
  {
    if i > 0 {
      var table := tables[i - 1];
      CountsTables(tables, i - 1, e);
      CountsRows(table.id, table.rows, |table.rows|, e);
      TimesAppend(Entries(tables, i - 1), RowEntries(table.id, table.rows, |table.rows|), e);
    }
  }

  lemma {:induction false} SharesCount(tables: seq<TableLog>, place: Placement, s: nat, i: nat, e: Entry)
    requires i <= |tables|
    ensures InTables(Shares(tables, place, s), i, e) == if place(e.row.id) == s then InTables(tables, i, e) else 0
  {
    if i > 0 {
      SharesCount(tables, place, s, i - 1, e);
      MineCounts(tables[i - 1].rows, place, s, tables[i - 1].id, |tables[i - 1].rows|, e);
    }
  }

  /** Every entry is in the message to its own server, as often as in the oplog, and in no other. */
  lemma EachEntryToItsServer(tables: seq<TableLog>, place: Placement, s: nat, e: Entry)
    ensures Times(Entries(Shares(tables, place, s), |tables|), e) == if place(e.row.id) == s then Times(Entries(tables, |tables|), e) else 0
  {
    SharesCount(tables, place, s, |tables|, e);
    CountsTables(tables, |tables|, e);
    CountsTables(Shares(tables, place, s), |tables|, e);
  }

  // ------------------------------------------------ laying out one message

  ghost predicate HeaderInPlace(mem: seq<byte>, shares: seq<TableLog>, i: nat)
    requires i < |shares|
  {
    HeaderAt(mem, 4 + TablesSize(shares, i), shares[i])
  }

  ghost predicate SectionInPlace(mem: seq<byte>, shares: seq<TableLog>, i: nat)
    requires i < |shares|
  {
    SectionAt(mem, 16 + TablesSize(shares, i), shares[i])
  }

  /** The number of tables, the first `h` headers and the first `n` sections are written. */
  ghost predicate MessageTo(mem: seq<byte>, shares: seq<TableLog>, h: nat, n: nat)
    requires h <= |shares| && n <= |shares|
  {
    && |mem| == 4 + TablesSize(shares, |shares|) && IntAt(mem, 0, |shares|)
    && HeadersTo(mem, shares, h) && SectionsTo(mem, shares, n)
  }

  ghost predicate HeadersTo(mem: seq<byte>, shares: seq<TableLog>, h: nat)
    requires h <= |shares|
  {
    forall i {:trigger HeaderInPlace(mem, shares, i)} | 0 <= i < h :: HeaderInPlace(mem, shares, i)
  }

  ghost predicate SectionsTo(mem: seq<byte>, shares: seq<TableLog>, n: nat)
    requires n <= |shares|
  {
    forall i {:trigger SectionInPlace(mem, shares, i)} | 0 <= i < n :: SectionInPlace(mem, shares, i)
  }

  lemma {:induction false} TablesSizeGrows(shares: seq<TableLog>, i: nat, n: nat)
    requires i < n <= |shares|
    ensures TablesSize(shares, i) + TableSize(shares[i]) <= TablesSize(shares, n)
  {
    if i < n - 1 {
      TablesSizeGrows(shares, i, n - 1);
    }
  }

  lemma HeaderKept(mem: seq<byte>, mem': seq<byte>, shares: seq<TableLog>, i: nat)
    requires i < |shares| && HeaderInPlace(mem, shares, i)
    requires Agree(mem, mem', 4 + TablesSize(shares, i), 16 + TablesSize(shares, i))
    ensures HeaderInPlace(mem', shares, i)
  {
    var at := 4 + TablesSize(shares, i);
    IntKept(mem, mem', at, shares[i].id);
    WordKept(mem, mem', at + 4, shares[i].updateSize);
  }

  lemma AgreeWithin(mem: seq<byte>, mem': seq<byte>, lo: nat, hi: nat, lo': nat, hi': nat)
    requires Agree(mem, mem', lo, hi) && lo <= lo' && hi' <= hi
    ensures Agree(mem, mem', lo', hi')
  {
  }

  lemma SectionEnds(share: TableLog, at: nat, to: nat)
    requires to == at - 12 + TableSize(share)
    ensures to == at + 4 + Length(share.rows, share.updateSize)
  {
  }

  lemma SectionKept(mem: seq<byte>, mem': seq<byte>, shares: seq<TableLog>, i: nat)
    requires TablesFit(shares) && i < |shares| && SectionInPlace(mem, shares, i)
    requires Agree(mem, mem', 16 + TablesSize(shares, i), 4 + TablesSize(shares, i) + TableSize(shares[i]))
    ensures SectionInPlace(mem', shares, i)
  {
    var at, share := 16 + TablesSize(shares, i), shares[i];
    assert TableFits(share);
    SectionEnds(share, at, 4 + TablesSize(shares, i) + TableSize(share));
    SectionAtKept(mem, mem', at, share);
  }

  lemma SectionAtKept(mem: seq<byte>, mem': seq<byte>, at: nat, share: TableLog)
    requires SectionAt(mem, at, share) && TableFits(share) && Agree(mem, mem', at, at + 4 + Length(share.rows, share.updateSize))
    ensures SectionAt(mem', at, share)
  {
    var to := at + 4 + Length(share.rows, share.updateSize);
    AgreeWithin(mem, mem', at, to, at, at + 4);
    AgreeWithin(mem, mem', at, to, at + 4, to);
    IntKept(mem, mem', at, |share.rows|);
    RowsKept(mem, mem', at + 4, share.rows, share.updateSize);
  }

  /** Writing header `h` disturbs nothing that is already there. */
  lemma HeaderWritten(mem: seq<byte>, mem': seq<byte>, shares: seq<TableLog>, h: nat)
    requires h < |shares| && MessageTo(mem, shares, h, 0)
    requires Within(mem, mem', 4 + TablesSize(shares, h), 16 + TablesSize(shares, h)) && HeaderInPlace(mem', shares, h)
    ensures MessageTo(mem', shares, h + 1, 0)
  {
    IntKept(mem, mem', 0, |shares|);
    forall i | 0 <= i < h ensures HeaderInPlace(mem', shares, i) {
      assert HeaderInPlace(mem, shares, i);
      TablesSizeGrows(shares, i, h);
      HeaderKept(mem, mem', shares, i);
    }
  }

  ghost predicate InSection(mem: seq<byte>, mem': seq<byte>, shares: seq<TableLog>, n: nat)
    requires n < |shares|
  {
    Within(mem, mem', 16 + TablesSize(shares, n), 4 + TablesSize(shares, n) + TableSize(shares[n]))
  }

  lemma HeadersStay(mem: seq<byte>, mem': seq<byte>, shares: seq<TableLog>, n: nat)
    requires n < |shares| && HeadersTo(mem, shares, |shares|) && InSection(mem, mem', shares, n)
    ensures HeadersTo(mem', shares, |shares|)
  {
    forall i | 0 <= i < |shares| ensures HeaderInPlace(mem', shares, i) {
      assert HeaderInPlace(mem, shares, i);
      HeaderAside(mem, mem', shares, n, i);
    }
  }

  lemma SectionsStay(mem: seq<byte>, mem': seq<byte>, shares: seq<TableLog>, n: nat)
    requires TablesFit(shares) && n < |shares| && SectionsTo(mem, shares, n) && InSection(mem, mem', shares, n)
    requires SectionInPlace(mem', shares, n)
    ensures SectionsTo(mem', shares, n + 1)
  {
    forall i | 0 <= i < n ensures SectionInPlace(mem', shares, i) {
      assert SectionInPlace(mem, shares, i);
      SectionAside(mem, mem', shares, n, i);
    }
  }

  /** Writing section `n` disturbs nothing that is already there. */
  lemma SectionWritten(mem: seq<byte>, mem': seq<byte>, shares: seq<TableLog>, n: nat)
    requires TablesFit(shares) && n < |shares| && MessageTo(mem, shares, |shares|, n)
    requires InSection(mem, mem', shares, n) && SectionInPlace(mem', shares, n)
    ensures MessageTo(mem', shares, |shares|, n + 1)
  {
    WithinAgrees(mem, mem', 16 + TablesSize(shares, n), 4 + TablesSize(shares, n) + TableSize(shares[n]), 0, 4);
    IntKept(mem, mem', 0, |shares|);
    HeadersStay(mem, mem', shares, n);
    SectionsStay(mem, mem', shares, n);
  }

  lemma SectionAside(mem: seq<byte>, mem': seq<byte>, shares: seq<TableLog>, n: nat, i: nat)
    requires TablesFit(shares) && i < n < |shares| && SectionInPlace(mem, shares, i)
    requires InSection(mem, mem', shares, n)
    ensures SectionInPlace(mem', shares, i)
  {
    TablesSizeGrows(shares, i, n);
    WithinAgrees(mem, mem', 16 + TablesSize(shares, n), 4 + TablesSize(shares, n) + TableSize(shares[n]),
                 16 + TablesSize(shares, i), 4 + TablesSize(shares, i) + TableSize(shares[i]));
    SectionKept(mem, mem', shares, i);
  }

  lemma HeaderAside(mem: seq<byte>, mem': seq<byte>, shares: seq<TableLog>, n: nat, i: nat)
    requires n < |shares| && i < |shares| && HeaderInPlace(mem, shares, i)
    requires InSection(mem, mem', shares, n)
    ensures HeaderInPlace(mem', shares, i)
  {
    var lo, hi := 16 + TablesSize(shares, n), 4 + TablesSize(shares, n) + TableSize(shares[n]);
    var at := 4 + TablesSize(shares, i);
    HeaderClear(shares, n, i);
    WithinAgrees(mem, mem', lo, hi, at, at + 12);
    HeaderKept(mem, mem', shares, i);
  }

  /** No header lies inside another table's section. */
  lemma HeaderClear(shares: seq<TableLog>, n: nat, i: nat)
    requires n < |shares| && i < |shares|
    ensures 16 + TablesSize(shares, i) <= 16 + TablesSize(shares, n) || TablesSize(shares, n) + TableSize(shares[n]) <= TablesSize(shares, i)
  {
    if i < n {
      TablesSizeGrows(shares, i, n);
    } else if n < i {
      TablesSizeGrows(shares, n, i);
    }
  }

  lemma Finished(mem: seq<byte>, shares: seq<TableLog>)
    requires MessageTo(mem, shares, |shares|, |shares|)
    ensures Spells(mem, shares)
  {
    forall i | 0 <= i < |shares| ensures TableInPlace(mem, shares, i) {
      assert HeaderInPlace(mem, shares, i) && SectionInPlace(mem, shares, i);
    }
  }

  // ------------------------------------------------ all messages

  ghost predicate SizeOk(sizes: seq<nat>, shares: seq<TableLog>, i: nat)
    requires i < |sizes| && i < |shares|
  {
    sizes[i] + 12 == TableSize(shares[i])
  }

  ghost predicate OffsetOk(offsets: seq<nat>, shares: seq<TableLog>, i: nat)
    requires i < |offsets| && i < |shares|
  {
    offsets[i] == 4 + TablesSize(shares, i)
  }

  /** OpLogSerializer::Init: where each table starts, and how long the message is. */
  method Init(sizes: seq<nat>, ghost shares: seq<TableLog>) returns (offsets: seq<nat>, total: nat)
    requires |sizes| == |shares| && forall i | 0 <= i < |shares| :: SizeOk(sizes, shares, i)
    ensures |offsets| == |sizes| && forall i {:trigger OffsetOk(offsets, shares, i)} | 0 <= i < |sizes| :: OffsetOk(offsets, shares, i)
    ensures total == 4 + TablesSize(shares, |shares|)
  {
    offsets, total := [], 4;
    while |offsets| < |sizes|
      invariant |offsets| <= |sizes| && total == 4 + TablesSize(shares, |offsets|)
      invariant forall i {:trigger OffsetOk(offsets, shares, i)} | 0 <= i < |offsets| :: OffsetOk(offsets, shares, i)
    {
      ghost var before := offsets;
      var size := sizes[|offsets|];
      assert SizeOk(sizes, shares, |offsets|);
      offsets := offsets + [total];
      total := total + size + 4 + 8;
      forall i | 0 <= i < |offsets| ensures OffsetOk(offsets, shares, i) {
        assert i < |before| ==> OffsetOk(before, shares, i);
      }
    }
  }

  /** The first half of CreateOpLogMsgs for one server: memory of the computed size (holding
      anything), the number of tables, and every table's id and update size. */
  method WriteHeaders(mem: seq<byte>, offsets: seq<nat>, tables: seq<TableLog>, ghost shares: seq<TableLog>) returns (r: seq<byte>)
    requires TablesFit(shares) && |offsets| == |tables| == |shares| && |mem| == 4 + TablesSize(shares, |shares|)
    requires forall i {:trigger OffsetOk(offsets, shares, i)} | 0 <= i < |tables| :: OffsetOk(offsets, shares, i)
    requires forall i | 0 <= i < |tables| :: tables[i].id == shares[i].id && tables[i].updateSize == shares[i].updateSize
    ensures MessageTo(r, shares, |shares|, 0)
  {
    r := PutInt(mem, 0, |tables|);
    var i := 0;
    while i < |tables|
      invariant i <= |tables| && MessageTo(r, shares, i, 0)
    {
      assert OffsetOk(offsets, shares, i) && TableFits(shares[i]);
      r := WriteHeader(r, offsets[i], tables[i], shares, i);
      i := i + 1;
    }
  }

  method WriteHeader(mem: seq<byte>, at: nat, table: TableLog, ghost shares: seq<TableLog>, ghost i: nat) returns (r: seq<byte>)
    requires i < |shares| && TableFits(shares[i]) && table.id == shares[i].id && table.updateSize == shares[i].updateSize
    requires at == 4 + TablesSize(shares, i) && MessageTo(mem, shares, i, 0)
    ensures MessageTo(r, shares, i + 1, 0)
  {
    TablesSizeGrows(shares, i, |shares|);
    var mid := PutInt(mem, at, table.id);
    r := PutWord(mid, at + 4, table.updateSize);
    IntKept(mid, r, at, table.id);
    HeaderWritten(mem, r, shares, i);
  }

  /** The messages to all servers, with the sections of the first `n` tables. */
  ghost predicate MessagesTo(mems: seq<seq<byte>>, tables: seq<TableLog>, place: Placement, n: nat)
    requires n <= |tables|
  {
    forall s {:trigger Shares(tables, place, s)} | 0 <= s < |mems| :: MessageTo(mems[s], Shares(tables, place, s), |tables|, n)
  }

  /** Table `n` of every message. */
  method WriteTable(mems: seq<seq<byte>>, bases: seq<nat>, tables: seq<TableLog>, place: Placement, n: nat) returns (r: seq<seq<byte>>)
    requires TablesFit(tables) && n < |tables| && (forall id :: place(id) < |mems|) && |bases| == |mems|
    requires forall s | 0 <= s < |mems| :: bases[s] == 16 + TablesSize(Shares(tables, place, s), n)
    requires MessagesTo(mems, tables, place, n)
    ensures |r| == |mems| && MessagesTo(r, tables, place, n + 1)
  {
    assert TableFits(tables[n]);
    forall s | 0 <= s < |mems| ensures RoomFor(mems[s], bases[s], tables[n], place, s) {
      TablesSizeGrows(Shares(tables, place, s), n, |tables|);
    }
    r := SerializeByServer(mems, bases, tables[n], place);
    forall s | 0 <= s < |mems| ensures MessageTo(r[s], Shares(tables, place, s), |tables|, n + 1) {
      var shares := Shares(tables, place, s);
      assert ServerAt(mems[s], r[s], bases[s], FullLength(tables[n], place, s), tables[n], place, s, |tables[n].rows|);
      SharesFit(tables, place, s);
      SectionWritten(mems[s], r[s], shares, n);
    }
  }

  /** GetOpLogAndIndex's sizes for all tables: `sizes[i][s]`. */
  method AllSizes(tables: seq<TableLog>, place: Placement, servers: nat) returns (sizes: seq<seq<nat>>)
    requires forall id :: place(id) < servers
    ensures |sizes| == |tables| && forall i | 0 <= i < |tables| :: |sizes[i]| == servers
    ensures forall i, s | 0 <= i < |tables| && 0 <= s < servers :: sizes[i][s] == FullLength(tables[i], place, s)
  {
    sizes := [];
    while |sizes| < |tables|
      invariant |sizes| <= |tables| && forall i | 0 <= i < |sizes| :: |sizes[i]| == servers
      invariant forall i, s | 0 <= i < |sizes| && 0 <= s < servers :: sizes[i][s] == FullLength(tables[i], place, s)
    {
      var next := SectionSizes(tables[|sizes|], place, servers);
      sizes := sizes + [next];
    }
  }

  /** Server `s`: its message with headers, and where its tables start. */
  method StartMessage(sizes: seq<nat>, tables: seq<TableLog>, memory: nat -> seq<byte>, ghost place: Placement, ghost s: nat)
    returns (mem: seq<byte>, offsets: seq<nat>)
    requires TablesFit(tables) && |sizes| == |tables| && forall n :: |memory(n)| == n
    requires forall i | 0 <= i < |tables| :: sizes[i] == FullLength(tables[i], place, s)
    ensures |offsets| == |tables| && MessageTo(mem, Shares(tables, place, s), |tables|, 0)
    ensures forall i | 0 <= i < |tables| :: OffsetOk(offsets, Shares(tables, place, s), i)
  {
    ghost var shares := Shares(tables, place, s);
    SharesFit(tables, place, s);
    forall i | 0 <= i < |shares| ensures SizeOk(sizes, shares, i) {}
    var total;
    offsets, total := Init(sizes, shares);
    mem := WriteHeaders(memory(total), offsets, tables, shares);
  }

  /** All headers of all messages. */
  method StartMessages(sizes: seq<seq<nat>>, tables: seq<TableLog>, servers: nat, memory: nat -> seq<byte>, ghost place: Placement)
    returns (mems: seq<seq<byte>>, offsets: seq<seq<nat>>)
    requires TablesFit(tables) && |sizes| == |tables| && (forall n :: |memory(n)| == n) && forall i | 0 <= i < |tables| :: |sizes[i]| == servers
    requires forall i, s | 0 <= i < |tables| && 0 <= s < servers :: sizes[i][s] == FullLength(tables[i], place, s)
    ensures |mems| == |offsets| == servers && MessagesTo(mems, tables, place, 0)
    ensures forall s | 0 <= s < servers :: |offsets[s]| == |tables|
    ensures forall s, i | 0 <= s < servers && 0 <= i < |tables| :: OffsetOk(offsets[s], Shares(tables, place, s), i)
  {
    mems, offsets := [], [];
    while |mems| < servers
      invariant |mems| == |offsets| <= servers && MessagesTo(mems, tables, place, 0)
      invariant forall s | 0 <= s < |offsets| :: |offsets[s]| == |tables|
      invariant forall s, i | 0 <= s < |offsets| && 0 <= i < |tables| :: OffsetOk(offsets[s], Shares(tables, place, s), i)
    {
      var s := |mems|;
      var mine := seq(|tables|, i requires 0 <= i < |tables| => sizes[i][s]);
      var mem, starts := StartMessage(mine, tables, memory, place, s);
      mems, offsets := mems + [mem], offsets + [starts];
    }
  }

  /** CreateOpLogMsgs: server s gets a message of exactly the computed size that spells its share. */
  method CreateOpLogMsgs(tables: seq<TableLog>, place: Placement, servers: nat, memory: nat -> seq<byte>) returns (msgs: seq<seq<byte>>)
    requires TablesFit(tables) && (forall id :: place(id) < servers) && forall n :: |memory(n)| == n
    ensures |msgs| == servers && forall s | 0 <= s < servers :: Spells(msgs[s], Shares(tables, place, s))
  {
    var sizes := AllSizes(tables, place, servers);
    var offsets;
    msgs, offsets := StartMessages(sizes, tables, servers, memory, place);
    var n := 0;
    while n < |tables|
      invariant n <= |tables| && |msgs| == servers && MessagesTo(msgs, tables, place, n)
    {
      var bases: seq<nat> := seq(servers, s requires 0 <= s < servers => offsets[s][n] + 4 + 8);
      forall s | 0 <= s < servers ensures bases[s] == 16 + TablesSize(Shares(tables, place, s), n) {
        assert OffsetOk(offsets[s], Shares(tables, place, s), n);
      }
      msgs := WriteTable(msgs, bases, tables, place, n);
      n := n + 1;
    }
    forall s | 0 <= s < servers ensures Spells(msgs[s], Shares(tables, place, s)) {
      assert MessageTo(msgs[s], Shares(tables, place, s), |tables|, |tables|);
      Finished(msgs[s], Shares(tables, place, s));
    }
  }

  /** The whole trip: what server `s` applies is its part of the oplog, each entry as often as
      it was shipped, and nothing else. */
  method ShipAndRead(tables: seq<TableLog>, place: Placement, servers: nat, memory: nat -> seq<byte>, s: nat) returns (entries: seq<Entry>)
    requires TablesFit(tables) && (forall id :: place(id) < servers) && (forall n :: |memory(n)| == n) && s < servers
    ensures forall e :: Times(entries, e) == if place(e.row.id) == s then Times(Entries(tables, |tables|), e) else 0
  {
    var msgs := CreateOpLogMsgs(tables, place, servers, memory);
    SharesFit(tables, place, s);
    entries := ReadEntries(msgs[s], Shares(tables, place, s));
    forall e ensures Times(entries, e) == if place(e.row.id) == s then Times(Entries(tables, |tables|), e) else 0 {
      EachEntryToItsServer(tables, place, s, e);
    }
  }
}
