/** SerializeByServer and CreateOpLogMsgs: one oplog, split into a message for every server.

    Message sizes and table offsets are computed beforehand; the rows are then written through
    one moving offset per server. */
module OpLogWriter {
  import opened PsTypes
  import opened WireBytes
  import opened OpLogLayout

  /** Which server a row lives on (in the code, its id modulo their number). */
  type Placement = int -> nat

  // ------------------------------------------------ writing in place

  /** The two memories agree from `lo` to `hi`. */
  ghost predicate Agree(mem: seq<byte>, mem': seq<byte>, lo: nat, hi: nat) {
    |mem'| == |mem| && forall k | lo <= k < hi && k < |mem| :: mem'[k] == mem[k]
  }

  /** Nothing outside `lo` to `hi` has changed. */
  ghost predicate Within(mem: seq<byte>, mem': seq<byte>, lo: nat, hi: nat) {
    |mem'| == |mem| && forall k | 0 <= k < |mem| && (k < lo || hi <= k) :: mem'[k] == mem[k]
  }

  function Put(mem: seq<byte>, at: nat, bytes: seq<byte>): (r: seq<byte>)
    requires at + |bytes| <= |mem|
    ensures Within(mem, r, at, at + |bytes|) && BytesAt(r, at, bytes)
  {
    Splice(mem, at, bytes)
  }

  lemma SliceKept(mem: seq<byte>, mem': seq<byte>, at: nat, n: nat)
    requires at + n <= |mem| && Agree(mem, mem', at, at + n)
    ensures mem'[at..at + n] == mem[at..at + n]
  {
  }

  lemma IntKept(mem: seq<byte>, mem': seq<byte>, at: nat, x: int)
    requires IntAt(mem, at, x) && Agree(mem, mem', at, at + 4)
    ensures IntAt(mem', at, x)
  {
    SliceKept(mem, mem', at, 4);
  }

  lemma WordKept(mem: seq<byte>, mem': seq<byte>, at: nat, x: int)
    requires WordAt(mem, at, x) && Agree(mem, mem', at, at + 8)
    ensures WordAt(mem', at, x)
  {
    SliceKept(mem, mem', at, 8);
  }

  lemma BytesKept(mem: seq<byte>, mem': seq<byte>, at: nat, bytes: seq<byte>)
    requires BytesAt(mem, at, bytes) && Agree(mem, mem', at, at + |bytes|)
    ensures BytesAt(mem', at, bytes)
  {
    SliceKept(mem, mem', at, |bytes|);
  }

  function PutInt(mem: seq<byte>, at: nat, x: int): (r: seq<byte>)
    requires at + 4 <= |mem| && IsInt32(x)
    ensures Within(mem, r, at, at + 4) && IntAt(r, at, x)
  {
    Int32RoundTrip(x);
    Put(mem, at, Enc32(x))
  }

  function PutWord(mem: seq<byte>, at: nat, x: int): (r: seq<byte>)
    requires at + 8 <= |mem| && IsUInt64(x)
    ensures Within(mem, r, at, at + 8) && WordAt(r, at, x)
  {
    UInt64RoundTrip(x);
    Put(mem, at, Enc64(x))
  }

  lemma WithinTrans(a: seq<byte>, b: seq<byte>, c: seq<byte>, lo: nat, hi: nat)
    requires Within(a, b, lo, hi) && Within(b, c, lo, hi)
    ensures Within(a, c, lo, hi)
  {
  }

  lemma WithinWider(a: seq<byte>, b: seq<byte>, lo: nat, hi: nat, lo': nat, hi': nat)
    requires Within(a, b, lo, hi) && lo' <= lo && hi <= hi'
    ensures Within(a, b, lo', hi')
  {
  }

  lemma WithinAgrees(a: seq<byte>, b: seq<byte>, lo: nat, hi: nat, from: nat, to: nat)
    requires Within(a, b, lo, hi) && (to <= lo || hi <= from)
    ensures Agree(a, b, from, to)
  {
  }

  // ------------------------------------------------ one row

  lemma CellKept(mem: seq<byte>, mem': seq<byte>, columnsAt: nat, updatesAt: nat, cells: seq<Cell>, updateSize: nat, j: nat)
    requires j < |cells| && CellInPlace(mem, columnsAt, updatesAt, cells, updateSize, j)
    requires Agree(mem, mem', columnsAt + 4 * j, columnsAt + 4 * j + 4)
    requires Agree(mem, mem', updatesAt + Span(updateSize, j), updatesAt + Span(updateSize, j) + |cells[j].update|)
    ensures CellInPlace(mem', columnsAt, updatesAt, cells, updateSize, j)
  {
    IntKept(mem, mem', columnsAt + 4 * j, cells[j].column);
    BytesKept(mem, mem', updatesAt + Span(updateSize, j), cells[j].update);
  }

  /** One turn of the cell loop: a column id, and an update further on. */
  method WriteCell(mem: seq<byte>, columnsAt: nat, updatesAt: nat, row: RowLog, updateSize: nat, j: nat) returns (r: seq<byte>)
    requires RowFits(row, updateSize) && j < |row.cells| && columnsAt + 4 * |row.cells| == updatesAt
    requires updatesAt + Span(updateSize, |row.cells|) <= |mem|
    ensures Within(mem, r, columnsAt + 4 * j, updatesAt + Span(updateSize, j) + updateSize)
    ensures Agree(mem, r, columnsAt + 4 * j + 4, updatesAt + Span(updateSize, j))
    ensures CellInPlace(r, columnsAt, updatesAt, row.cells, updateSize, j)
  {
    var cell := row.cells[j];
    assert CellFits(cell, updateSize);
    SpanGrows(updateSize, j, |row.cells|);
    var column, at := columnsAt + 4 * j, updatesAt + Span(updateSize, j);
    var mid := PutInt(mem, column, cell.column);
    r := Put(mid, at, cell.update);
    WithinAgrees(mid, r, at, at + updateSize, column, column + 4);
    IntKept(mid, r, column, cell.column);
  }

  /** The first `n` cells are written. */
  ghost predicate CellsTo(mem: seq<byte>, columnsAt: nat, updatesAt: nat, cells: seq<Cell>, updateSize: nat, n: nat)
    requires n <= |cells|
  {
    forall j {:trigger CellInPlace(mem, columnsAt, updatesAt, cells, updateSize, j)} | 0 <= j < n ::
      CellInPlace(mem, columnsAt, updatesAt, cells, updateSize, j)
  }

  lemma CellsStay(mem: seq<byte>, mem': seq<byte>, columnsAt: nat, updatesAt: nat, row: RowLog, updateSize: nat, n: nat)
    requires RowFits(row, updateSize) && n < |row.cells| && columnsAt + 4 * |row.cells| == updatesAt
    requires CellsTo(mem, columnsAt, updatesAt, row.cells, updateSize, n)
    requires Within(mem, mem', columnsAt + 4 * n, updatesAt + Span(updateSize, n) + updateSize)
    requires Agree(mem, mem', columnsAt + 4 * n + 4, updatesAt + Span(updateSize, n))
    requires CellInPlace(mem', columnsAt, updatesAt, row.cells, updateSize, n)
    ensures CellsTo(mem', columnsAt, updatesAt, row.cells, updateSize, n + 1)
  {
    forall j | 0 <= j < n ensures CellInPlace(mem', columnsAt, updatesAt, row.cells, updateSize, j) {
      assert CellInPlace(mem, columnsAt, updatesAt, row.cells, updateSize, j) && CellFits(row.cells[j], updateSize);
      SpanGrows(updateSize, j, n);
      CellKept(mem, mem', columnsAt, updatesAt, row.cells, updateSize, j);
    }
  }

  /** One row of SerializeByServer's loop, at `at`. */
  method WriteRow(mem: seq<byte>, at: nat, row: RowLog, updateSize: nat) returns (r: seq<byte>)
    requires RowFits(row, updateSize) && at + RowSize(row, updateSize) <= |mem|
    ensures RowAt(r, at, row, updateSize) && Within(mem, r, at, at + RowSize(row, updateSize))
  {
    var n := |row.cells|;
    var columns, updates := at + 8, at + 8 + 4 * n;
    ghost var end := at + RowSize(row, updateSize);
    var first := PutInt(mem, at, row.id);
    r := PutInt(first, at + 4, n);
    IntKept(first, r, at, row.id);
    var j := 0;
    while j < n
      invariant 0 <= j <= n && Within(mem, r, at, end)
      invariant IntAt(r, at, row.id) && IntAt(r, at + 4, n) && CellsTo(r, columns, updates, row.cells, updateSize, j)
    {
      ghost var before := r;
      SpanGrows(updateSize, j, n);
      r := WriteCell(r, columns, updates, row, updateSize, j);
      CellsStay(before, r, columns, updates, row, updateSize, j);
      IntKept(before, r, at, row.id);
      IntKept(before, r, at + 4, n);
      j := j + 1;
    }
  }

  // ------------------------------------------------ the rows of one table

  lemma RowKept(mem: seq<byte>, mem': seq<byte>, at: nat, row: RowLog, updateSize: nat)
    requires RowAt(mem, at, row, updateSize) && RowFits(row, updateSize) && Agree(mem, mem', at, at + RowSize(row, updateSize))
    ensures RowAt(mem', at, row, updateSize)
  {
    IntKept(mem, mem', at, row.id);
    IntKept(mem, mem', at + 4, |row.cells|);
    var columns, updates := at + 8, at + 8 + 4 * |row.cells|;
    forall j | 0 <= j < |row.cells| ensures CellInPlace(mem', columns, updates, row.cells, updateSize, j) {
      assert CellInPlace(mem, columns, updates, row.cells, updateSize, j) && CellFits(row.cells[j], updateSize);
      SpanGrows(updateSize, j, |row.cells|);
      CellKept(mem, mem', columns, updates, row.cells, updateSize, j);
    }
  }

  ghost predicate AllRowsFit(rows: seq<RowLog>, updateSize: nat) {
    forall j {:trigger RowFits(rows[j], updateSize)} | 0 <= j < |rows| :: RowFits(rows[j], updateSize)
  }

  lemma {:induction false} RowsSizeGrows(rows: seq<RowLog>, updateSize: nat, j: nat, n: nat)
    requires j < n <= |rows|
    ensures RowsSize(rows, updateSize, j) + RowSize(rows[j], updateSize) <= RowsSize(rows, updateSize, n)
  {
    if j < n - 1 {
      RowsSizeGrows(rows, updateSize, j, n - 1);
    }
  }

  lemma {:induction false} RowsSizePrefix(rows: seq<RowLog>, row: RowLog, updateSize: nat, j: nat)
    requires j <= |rows|
    ensures RowsSize(rows + [row], updateSize, j) == RowsSize(rows, updateSize, j)
  {
    if j > 0 {
      RowsSizePrefix(rows, row, updateSize, j - 1);
    }
  }

  /** All rows and their size. */
  ghost function Length(rows: seq<RowLog>, updateSize: nat): nat {
    RowsSize(rows, updateSize, |rows|)
  }

  lemma LengthMore(rows: seq<RowLog>, row: RowLog, updateSize: nat)
    ensures Length(rows + [row], updateSize) == Length(rows, updateSize) + RowSize(row, updateSize)
  {
    RowsSizePrefix(rows, row, updateSize, |rows|);
  }

  lemma RowsKept(mem: seq<byte>, mem': seq<byte>, at: nat, rows: seq<RowLog>, updateSize: nat)
    requires RowsAt(mem, at, rows, updateSize) && AllRowsFit(rows, updateSize) && Agree(mem, mem', at, at + Length(rows, updateSize))
    ensures RowsAt(mem', at, rows, updateSize)
  {
    forall j | 0 <= j < |rows| ensures RowInPlace(mem', at, rows, updateSize, j) {
      assert RowInPlace(mem, at, rows, updateSize, j) && RowFits(rows[j], updateSize);
      RowsSizeGrows(rows, updateSize, j, |rows|);
      RowKept(mem, mem', at + RowsSize(rows, updateSize, j), rows[j], updateSize);
    }
  }

  lemma RowsMore(mem: seq<byte>, at: nat, rows: seq<RowLog>, row: RowLog, updateSize: nat)
    requires RowsAt(mem, at, rows, updateSize) && RowAt(mem, at + Length(rows, updateSize), row, updateSize)
    ensures RowsAt(mem, at, rows + [row], updateSize)
  {
    var rows' := rows + [row];
    forall j | 0 <= j < |rows'| ensures RowInPlace(mem, at, rows', updateSize, j) {
      RowsSizePrefix(rows, row, updateSize, j);
      assert j < |rows| ==> RowInPlace(mem, at, rows, updateSize, j);
    }
  }

  /** The rows among the first `k` that live on server `s`. */
  ghost function Mine(rows: seq<RowLog>, place: Placement, s: nat, k: nat): seq<RowLog>
    requires k <= |rows|
  {
    if k == 0 then []
    else if place(rows[k - 1].id) == s then Mine(rows, place, s, k - 1) + [rows[k - 1]]
    else Mine(rows, place, s, k - 1)
  }

  lemma {:induction false} MineFit(rows: seq<RowLog>, place: Placement, s: nat, k: nat, updateSize: nat)
    requires k <= |rows| && AllRowsFit(rows, updateSize)
    ensures AllRowsFit(Mine(rows, place, s, k), updateSize) && |Mine(rows, place, s, k)| <= k
  {
    if k > 0 {
      MineFit(rows, place, s, k - 1, updateSize);
      assert RowFits(rows[k - 1], updateSize);
    }
  }

  lemma {:induction false} MineGrows(rows: seq<RowLog>, place: Placement, s: nat, k: nat, n: nat, updateSize: nat)
    requires k <= n <= |rows|
    ensures Length(Mine(rows, place, s, k), updateSize) <= Length(Mine(rows, place, s, n), updateSize)
  {
    if k < n {
      MineGrows(rows, place, s, k, n - 1, updateSize);
      LengthMore(Mine(rows, place, s, n - 1), rows[n - 1], updateSize);
    }
  }

  /** Server `s` has its rows among the first `k`, counted, in a section that starts at `base`. */
  ghost predicate SectionTo(mem: seq<byte>, base: nat, table: TableLog, place: Placement, s: nat, k: nat)
    requires k <= |table.rows|
  {
    var mine := Mine(table.rows, place, s, k);
    IntAt(mem, base, |mine|) && RowsAt(mem, base + 4, mine, table.updateSize)
  }

  ghost function ShareLength(table: TableLog, place: Placement, s: nat, k: nat): nat
    requires k <= |table.rows|
  {
    4 + Length(Mine(table.rows, place, s, k), table.updateSize)
  }

  /** One row of the loop: written behind the others of its server, and counted. */
  method AddRow(mem: seq<byte>, base: nat, offset: nat, table: TableLog, place: Placement, ghost s: nat, k: nat) returns (r: seq<byte>)
    requires TableFits(table) && k < |table.rows| && place(table.rows[k].id) == s
    requires SectionTo(mem, base, table, place, s, k) && offset == ShareLength(table, place, s, k)
    requires base + ShareLength(table, place, s, k + 1) <= |mem|
    ensures SectionTo(r, base, table, place, s, k + 1)
    ensures Within(mem, r, base, base + ShareLength(table, place, s, k + 1))
    ensures ShareLength(table, place, s, k + 1) == offset + RowSize(table.rows[k], table.updateSize)
  {
    var row, size := table.rows[k], table.updateSize;
    ghost var mine := Mine(table.rows, place, s, k);
    MineFit(table.rows, place, s, k, size);
    LengthMore(mine, row, size);
    assert RowFits(row, size);
    var at := base + offset;
    var mid := WriteRow(mem, at, row, size);
    RowAdded(mem, mid, base, mine, row, size);
    var count := Dec32(mid[base..base + 4]);
    r := PutInt(mid, base, count + 1);
    MineFit(table.rows, place, s, k + 1, size);
    RowsKept(mid, r, base + 4, mine + [row], size);
  }

  lemma RowAdded(mem: seq<byte>, mid: seq<byte>, base: nat, rows: seq<RowLog>, row: RowLog, updateSize: nat)
    requires IntAt(mem, base, |rows|) && RowsAt(mem, base + 4, rows, updateSize) && AllRowsFit(rows, updateSize)
    requires var at := base + 4 + Length(rows, updateSize);
      RowAt(mid, at, row, updateSize) && Within(mem, mid, at, at + RowSize(row, updateSize))
    ensures IntAt(mid, base, |rows|) && RowsAt(mid, base + 4, rows + [row], updateSize)
  {
    IntKept(mem, mid, base, |rows|);
    RowsKept(mem, mid, base + 4, rows, updateSize);
    RowsMore(mid, base + 4, rows, row, updateSize);
  }

  // ------------------------------------------------ one table, all servers

  ghost function FullLength(table: TableLog, place: Placement, s: nat): nat {
    ShareLength(table, place, s, |table.rows|)
  }

  /** The size loop of GetOpLogAndIndex: what each server's section of the table will take. */
  method SectionSizes(table: TableLog, place: Placement, servers: nat) returns (sizes: seq<nat>)
    requires forall id :: place(id) < servers
    ensures |sizes| == servers && forall s | 0 <= s < servers :: sizes[s] == FullLength(table, place, s)
  {
    sizes := seq(servers, _ => 4);
    var k := 0;
    while k < |table.rows|
      invariant k <= |table.rows| && |sizes| == servers
      invariant forall s | 0 <= s < servers :: sizes[s] == ShareLength(table, place, s, k)
    {
      var row := table.rows[k];
      var s := place(row.id);
      SpanIsProduct(table.updateSize, |row.cells|);
      LengthMore(Mine(table.rows, place, s, k), row, table.updateSize);
      sizes := sizes[s := sizes[s] + 4 + 4 + 4 * |row.cells| + table.updateSize * |row.cells|];
      k := k + 1;
    }
  }

  /** Server `s` after `k` rows of SerializeByServer. */
  ghost predicate ServerAt(was: seq<byte>, mem: seq<byte>, base: nat, offset: nat, table: TableLog, place: Placement, s: nat, k: nat)
    requires k <= |table.rows|
  {
    && SectionTo(mem, base, table, place, s, k) && offset == ShareLength(table, place, s, k)
    && Within(was, mem, base, base + FullLength(table, place, s))
  }

  ghost predicate RoomFor(mem: seq<byte>, base: nat, table: TableLog, place: Placement, s: nat) {
    base + FullLength(table, place, s) <= |mem|
  }

  /** Every section starts as a count of zero. */
  method ClearSections(mems: seq<seq<byte>>, bases: seq<nat>, table: TableLog, place: Placement) returns (r: seq<seq<byte>>)
    requires |bases| == |mems| && forall s | 0 <= s < |mems| :: RoomFor(mems[s], bases[s], table, place, s)
    ensures |r| == |mems| && forall s | 0 <= s < |mems| :: ServerAt(mems[s], r[s], bases[s], 4, table, place, s, 0)
  {
    r := [];
    while |r| < |mems|
      invariant |r| <= |mems|
      invariant forall s | 0 <= s < |r| :: ServerAt(mems[s], r[s], bases[s], 4, table, place, s, 0)
    {
      var s := |r|;
      assert RoomFor(mems[s], bases[s], table, place, s);
      var mem := PutInt(mems[s], bases[s], 0);
      WithinWider(mems[s], mem, bases[s], bases[s] + 4, bases[s], bases[s] + FullLength(table, place, s));
      r := r + [mem];
    }
  }

  lemma OtherServer(was: seq<byte>, mem: seq<byte>, base: nat, offset: nat, table: TableLog, place: Placement, s: nat, k: nat)
    requires k < |table.rows| && place(table.rows[k].id) != s && ServerAt(was, mem, base, offset, table, place, s, k)
    ensures ServerAt(was, mem, base, offset, table, place, s, k + 1)
  {
  }

  /** One row, on its own server. */
  method PlaceRow(ghost was: seq<byte>, mem: seq<byte>, base: nat, offset: nat, table: TableLog, place: Placement, ghost s: nat, k: nat)
    returns (r: seq<byte>)
    requires TableFits(table) && k < |table.rows| && place(table.rows[k].id) == s
    requires ServerAt(was, mem, base, offset, table, place, s, k) && RoomFor(mem, base, table, place, s)
    ensures ServerAt(was, r, base, offset + RowSize(table.rows[k], table.updateSize), table, place, s, k + 1)
  {
    MineGrows(table.rows, place, s, k + 1, |table.rows|, table.updateSize);
    r := AddRow(mem, base, offset, table, place, s, k);
    WithinWider(mem, r, base, base + ShareLength(table, place, s, k + 1), base, base + FullLength(table, place, s));
    WithinTrans(was, mem, r, base, base + FullLength(table, place, s));
  }

  /** BgOpLogPartition::SerializeByServer. */
  method SerializeByServer(mems: seq<seq<byte>>, bases: seq<nat>, table: TableLog, place: Placement) returns (r: seq<seq<byte>>)
    requires TableFits(table) && (forall id :: place(id) < |mems|) && |bases| == |mems|
    requires forall s | 0 <= s < |mems| :: RoomFor(mems[s], bases[s], table, place, s)
    ensures |r| == |mems|
    ensures forall s | 0 <= s < |mems| :: ServerAt(mems[s], r[s], bases[s], FullLength(table, place, s), table, place, s, |table.rows|)
  {
    r := ClearSections(mems, bases, table, place);
    var offsets: seq<nat> := seq(|mems|, _ => 4);
    var k := 0;
    while k < |table.rows|
      invariant k <= |table.rows| && |r| == |offsets| == |mems|
      invariant forall s | 0 <= s < |mems| :: ServerAt(mems[s], r[s], bases[s], offsets[s], table, place, s, k)
    {
      var row := table.rows[k];
      var s := place(row.id);
      ghost var before, offsetsBefore := r, offsets;
      assert ServerAt(mems[s], r[s], bases[s], offsets[s], table, place, s, k) && RoomFor(mems[s], bases[s], table, place, s);
      var mem := PlaceRow(mems[s], r[s], bases[s], offsets[s], table, place, s, k);
      r, offsets := r[s := mem], offsets[s := offsets[s] + RowSize(row, table.updateSize)];
      forall s' | 0 <= s' < |mems| ensures ServerAt(mems[s'], r[s'], bases[s'], offsets[s'], table, place, s', k + 1) {
        if s' != s {
          assert ServerAt(mems[s'], before[s'], bases[s'], offsetsBefore[s'], table, place, s', k);
          OtherServer(mems[s'], r[s'], bases[s'], offsets[s'], table, place, s', k);
        }
      }
      k := k + 1;
    }
  }
}
