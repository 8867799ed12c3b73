/** Client-to-server oplog messages: their layout, and the reader that walks one. */
module OpLogLayout {
  import opened PsTypes
  import opened WireBytes

  datatype Cell = Cell(column: int, update: seq<byte>)
  datatype RowLog = RowLog(id: int, cells: seq<Cell>)
  datatype TableLog = TableLog(id: int, updateSize: nat, rows: seq<RowLog>)

  /** One row's updates, as the server applies them. */
  datatype Entry = Entry(table: int, row: RowLog)

  // ------------------------------------------------ what fits

  ghost predicate CellFits(cell: Cell, updateSize: nat) {
    IsInt32(cell.column) && |cell.update| == updateSize
  }

  ghost predicate RowFits(row: RowLog, updateSize: nat) {
    && IsInt32(row.id) && IsInt32(|row.cells|)
    && forall j {:trigger CellFits(row.cells[j], updateSize)} | 0 <= j < |row.cells| :: CellFits(row.cells[j], updateSize)
  }

  ghost predicate TableFits(table: TableLog) {
    && IsInt32(table.id) && IsUInt64(table.updateSize) && IsInt32(|table.rows|)
    && forall j {:trigger RowFits(table.rows[j], table.updateSize)} | 0 <= j < |table.rows| :: RowFits(table.rows[j], table.updateSize)
  }

  ghost predicate TablesFit(tables: seq<TableLog>) {
    && IsInt32(|tables|)
    && forall i {:trigger TableFits(tables[i])} | 0 <= i < |tables| :: TableFits(tables[i])
  }

  // ------------------------------------------------ sizes

  /** The space `n` updates take. */
  function Span(updateSize: nat, n: nat): nat {
    if n == 0 then 0 else Span(updateSize, n - 1) + updateSize
  }

  lemma {:induction false} SpanIsProduct(updateSize: nat, n: nat)
    ensures Span(updateSize, n) == updateSize * n
  {
    if n > 0 {
      SpanIsProduct(updateSize, n - 1);
    }
  }

  lemma {:induction false} SpanGrows(updateSize: nat, j: nat, n: nat)
    requires j < n
    ensures Span(updateSize, j) + updateSize <= Span(updateSize, n)
  {
    if j < n - 1 {
      SpanGrows(updateSize, j, n - 1);
    }
  }

  function RowSize(row: RowLog, updateSize: nat): nat {
    8 + 4 * |row.cells| + Span(updateSize, |row.cells|)
  }

  /** The first `j` rows, and the first `i` tables. */
  ghost function RowsSize(rows: seq<RowLog>, updateSize: nat, j: nat): nat
    requires j <= |rows|
  {
    if j == 0 then 0 else RowsSize(rows, updateSize, j - 1) + RowSize(rows[j - 1], updateSize)
  }

  ghost function TableSize(table: TableLog): nat {
    16 + RowsSize(table.rows, table.updateSize, |table.rows|)
  }

  ghost function TablesSize(tables: seq<TableLog>, i: nat): nat
    requires i <= |tables|
  {
    if i == 0 then 0 else TablesSize(tables, i - 1) + TableSize(tables[i - 1])
  }

  // ------------------------------------------------ layout

  predicate IntAt(mem: seq<byte>, at: nat, x: int) {
    at + 4 <= |mem| && Dec32(mem[at..at + 4]) == x
  }

  predicate WordAt(mem: seq<byte>, at: nat, x: int) {
    at + 8 <= |mem| && Dec64(mem[at..at + 8]) == x
  }

  predicate BytesAt(mem: seq<byte>, at: nat, bytes: seq<byte>) {
    at + |bytes| <= |mem| && mem[at..at + |bytes|] == bytes
  }

  /** Column ids and updates stand in two parallel arrays. */
  ghost predicate CellInPlace(mem: seq<byte>, columnsAt: nat, updatesAt: nat, cells: seq<Cell>, updateSize: nat, j: nat)
    requires j < |cells|
  {
    IntAt(mem, columnsAt + 4 * j, cells[j].column) && BytesAt(mem, updatesAt + Span(updateSize, j), cells[j].update)
  }

  ghost predicate CellsAt(mem: seq<byte>, columnsAt: nat, updatesAt: nat, cells: seq<Cell>, updateSize: nat) {
    forall j {:trigger CellInPlace(mem, columnsAt, updatesAt, cells, updateSize, j)} | 0 <= j < |cells| ::
      CellInPlace(mem, columnsAt, updatesAt, cells, updateSize, j)
  }

  ghost predicate RowAt(mem: seq<byte>, at: nat, row: RowLog, updateSize: nat) {
    && at + RowSize(row, updateSize) <= |mem|
    && IntAt(mem, at, row.id) && IntAt(mem, at + 4, |row.cells|)
    && CellsAt(mem, at + 8, at + 8 + 4 * |row.cells|, row.cells, updateSize)
  }

  ghost predicate RowInPlace(mem: seq<byte>, at: nat, rows: seq<RowLog>, updateSize: nat, j: nat)
    requires j < |rows|
  {
    RowAt(mem, at + RowsSize(rows, updateSize, j), rows[j], updateSize)
  }

  ghost predicate RowsAt(mem: seq<byte>, at: nat, rows: seq<RowLog>, updateSize: nat) {
    forall j {:trigger RowInPlace(mem, at, rows, updateSize, j)} | 0 <= j < |rows| :: RowInPlace(mem, at, rows, updateSize, j)
  }

  ghost predicate HeaderAt(mem: seq<byte>, at: nat, table: TableLog) {
    IntAt(mem, at, table.id) && WordAt(mem, at + 4, table.updateSize)
  }

  /** A table's section: the number of its rows, then each of them. */
  ghost predicate SectionAt(mem: seq<byte>, at: nat, table: TableLog) {
    IntAt(mem, at, |table.rows|) && RowsAt(mem, at + 4, table.rows, table.updateSize)
  }

  ghost predicate TableInPlace(mem: seq<byte>, tables: seq<TableLog>, i: nat)
    requires i < |tables|
  {
    HeaderAt(mem, 4 + TablesSize(tables, i), tables[i]) && SectionAt(mem, 16 + TablesSize(tables, i), tables[i])
  }

  /** A message: as long as its contents, and no longer. */
  ghost predicate Spells(mem: seq<byte>, tables: seq<TableLog>) {
    && |mem| == 4 + TablesSize(tables, |tables|) && IntAt(mem, 0, |tables|)
    && forall i {:trigger TableInPlace(mem, tables, i)} | 0 <= i < |tables| :: TableInPlace(mem, tables, i)
  }

  // ------------------------------------------------ what a message says

  ghost function RowEntries(t: int, rows: seq<RowLog>, j: nat): seq<Entry>
    requires j <= |rows|
  {
    if j == 0 then [] else RowEntries(t, rows, j - 1) + [Entry(t, rows[j - 1])]
  }

  ghost function Entries(tables: seq<TableLog>, i: nat): seq<Entry>
    requires i <= |tables|
  {
    if i == 0 then []
    else Entries(tables, i - 1) + RowEntries(tables[i - 1].id, tables[i - 1].rows, |tables[i - 1].rows|)
  }

  // ------------------------------------------------ reading

  function Decode(mem: seq<byte>, columnsAt: nat, updatesAt: nat, updateSize: nat, n: nat): seq<Cell>
    requires columnsAt + 4 * n <= |mem| && updatesAt + Span(updateSize, n) <= |mem|
  {
    if n == 0 then []
    else
      var column, at := columnsAt + 4 * (n - 1), updatesAt + Span(updateSize, n - 1);
      Decode(mem, columnsAt, updatesAt, updateSize, n - 1) + [Cell(Dec32(mem[column..column + 4]), mem[at..at + updateSize])]
  }

  lemma {:induction false} DecodesTo(mem: seq<byte>, columnsAt: nat, updatesAt: nat, row: RowLog, updateSize: nat, n: nat)
    requires CellsAt(mem, columnsAt, updatesAt, row.cells, updateSize) && RowFits(row, updateSize) && n <= |row.cells|
    requires columnsAt + 4 * n <= |mem| && updatesAt + Span(updateSize, n) <= |mem|
    ensures Decode(mem, columnsAt, updatesAt, updateSize, n) == row.cells[..n]
  {
    if n > 0 {
      DecodesTo(mem, columnsAt, updatesAt, row, updateSize, n - 1);
      assert CellInPlace(mem, columnsAt, updatesAt, row.cells, updateSize, n - 1) && CellFits(row.cells[n - 1], updateSize);
      assert row.cells[..n] == row.cells[..n - 1] + [row.cells[n - 1]];
    }
  }

  lemma RowDecodes(mem: seq<byte>, at: nat, row: RowLog, updateSize: nat)
    requires RowAt(mem, at, row, updateSize) && RowFits(row, updateSize)
    ensures at + 8 <= |mem| && Dec32(mem[at..at + 4]) == row.id && Dec32(mem[at + 4..at + 8]) == |row.cells|
    ensures var n, cells := |row.cells|, at + 8;
      && cells + 4 * n + Span(updateSize, n) <= |mem|
      && Decode(mem, cells, cells + 4 * n, updateSize, n) == row.cells
  {
    DecodesTo(mem, at + 8, at + 8 + 4 * |row.cells|, row, updateSize, |row.cells|);
    assert row.cells[..|row.cells|] == row.cells;
  }

  /** Where row `j` of table `i` stands. */
  ghost function RowStart(tables: seq<TableLog>, i: nat, j: nat): nat
    requires i < |tables| && j <= |tables[i].rows|
  {
    20 + TablesSize(tables, i) + RowsSize(tables[i].rows, tables[i].updateSize, j)
  }

  lemma RowOf(mem: seq<byte>, tables: seq<TableLog>, i: nat, j: nat)
    requires Spells(mem, tables) && TablesFit(tables) && i < |tables| && j < |tables[i].rows|
    ensures RowAt(mem, RowStart(tables, i, j), tables[i].rows[j], tables[i].updateSize)
    ensures RowFits(tables[i].rows[j], tables[i].updateSize)
  {
    assert TableInPlace(mem, tables, i) && TableFits(tables[i]);
    assert RowInPlace(mem, 20 + TablesSize(tables, i), tables[i].rows, tables[i].updateSize, j);
  }

  class SerializedOpLogReader {
    const mem: seq<byte>
    var offset: nat
    var tablesLeft: int
    var rowsLeft: int
    var table: int
    var updateSize: nat

    /** The message, the table being read, and how many of its rows have been. */
    ghost const tables: seq<TableLog>
    ghost var i: nat
    ghost var j: nat

    ghost predicate Valid()
      reads this
    {
      && Spells(mem, tables) && TablesFit(tables) && i < |tables| && j <= |tables[i].rows|
      && table == tables[i].id && updateSize == tables[i].updateSize
      && rowsLeft == |tables[i].rows| - j && tablesLeft == |tables| - i
      && offset == RowStart(tables, i, j)
    }

    /** Everything read so far. */
    ghost function Read(): seq<Entry>
      requires i < |tables| && j <= |tables[i].rows|
      reads this
    {
      Entries(tables, i) + RowEntries(tables[i].id, tables[i].rows, j)
    }

    constructor (data: seq<byte>, ghost all: seq<TableLog>)
      ensures mem == data && tables == all
    {
      mem, tables := data, all;
      offset, tablesLeft, rowsLeft, table, updateSize, i, j := 0, 0, 0, 0, 0, 0, 0;
    }

    /** Opens table `next`, which may hold no rows. */
    method StartNewTable(ghost next: nat)
      requires Spells(mem, tables) && TablesFit(tables) && next < |tables| && tablesLeft == |tables| - next
      requires offset == 4 + TablesSize(tables, next)
      modifies this`offset, this`table, this`updateSize, this`rowsLeft, this`i, this`j
      ensures Valid() && i == next && j == 0
    {
      assert TableInPlace(mem, tables, next) && TableFits(tables[next]);
      table := Dec32(mem[offset..offset + 4]);
      updateSize := Dec64(mem[offset + 4..offset + 12]);
      rowsLeft := Dec32(mem[offset + 12..offset + 16]);
      offset := offset + 16;
      i, j := next, 0;
    }

    /** Reads the number of tables, and opens the first if there is one. */
    method Restart() returns (more: bool)
      requires Spells(mem, tables) && TablesFit(tables)
      modifies this
      ensures more <==> tables != []
      ensures more ==> Valid() && Read() == []
    {
      offset := 0;
      tablesLeft := Dec32(mem[offset..offset + 4]);
      offset := offset + 4;
      if tablesLeft == 0 {
        return false;
      }
      StartNewTable(0);
      more := true;
    }

    /** The updates of the next row, skipping tables without rows; None when all are read. */
    method Next() returns (entry: Option<Entry>)
      requires Valid()
      modifies this
      ensures entry.None? ==> old(Read()) == Entries(tables, |tables|)
      ensures entry.Some? ==> Valid() && Read() == old(Read()) + [entry.value]
      ensures entry.Some? ==> tablesLeft < old(tablesLeft) || (tablesLeft == old(tablesLeft) && rowsLeft < old(rowsLeft))
    {
      while rowsLeft == 0
        invariant Valid() && Read() == old(Read())
        invariant tablesLeft < old(tablesLeft) || (tablesLeft == old(tablesLeft) && rowsLeft == old(rowsLeft))
        decreases tablesLeft
      {
        var more := NextTable();
        if !more {
          return None;
        }
      }
      var row := NextRow();
      entry := Some(row);
    }

    /** All rows of a table are read: the next one is opened, if there is one. */
    method NextTable() returns (more: bool)
      requires Valid() && rowsLeft == 0
      modifies this
      ensures tablesLeft == old(tablesLeft) - 1
      ensures !more ==> old(Read()) == Entries(tables, |tables|)
      ensures more ==> Valid() && Read() == old(Read())
    {
      tablesLeft := tablesLeft - 1;
      if tablesLeft == 0 {
        return false;
      }
      StartNewTable(i + 1);
      more := true;
    }

    /** The row at the cursor, decoded, and where the next one stands. */
    lemma RowHere()
      requires Valid() && j < |tables[i].rows|
      ensures var row := tables[i].rows[j];
        var n, cells := |row.cells|, offset + 8;
        && cells <= |mem| && Dec32(mem[offset..offset + 4]) == row.id && Dec32(mem[offset + 4..offset + 8]) == n
        && cells + 4 * n + Span(updateSize, n) <= |mem| && Decode(mem, cells, cells + 4 * n, updateSize, n) == row.cells
        && cells + 4 * n + Span(updateSize, n) == RowStart(tables, i, j + 1)
    {
      RowOf(mem, tables, i, j);
      RowDecodes(mem, offset, tables[i].rows[j], updateSize);
    }

    method NextRow() returns (entry: Entry)
      requires Valid() && rowsLeft > 0
      modifies this`offset, this`rowsLeft, this`j
      ensures Valid() && Read() == old(Read()) + [entry] && rowsLeft == old(rowsLeft) - 1
    {
      RowHere();
      var id, n, cells := Dec32(mem[offset..offset + 4]), Dec32(mem[offset + 4..offset + 8]), offset + 8;
      entry := Entry(table, RowLog(id, Decode(mem, cells, cells + 4 * n, updateSize, n)));
      rowsLeft := rowsLeft - 1;
      offset := cells + 4 * n + Span(updateSize, n);
      j := j + 1;
    }
  }

  /** ApplyOpLog's loop: all entries of the message, in order. */
  method ReadEntries(data: seq<byte>, ghost tables: seq<TableLog>) returns (entries: seq<Entry>)
    requires Spells(data, tables) && TablesFit(tables)
    ensures entries == Entries(tables, |tables|)
  {
    var reader := new SerializedOpLogReader(data, tables);
    entries := [];
    var more := reader.Restart();
    if !more {
      return;
    }
    var entry := reader.Next();
    while entry.Some?
      invariant fresh(reader) && reader.tables == tables
      invariant entry.Some? ==> reader.Valid() && reader.Read() == entries + [entry.value]
      invariant entry.None? ==> entries == Entries(tables, |tables|)
      decreases if entry.Some? then 1 + reader.tablesLeft else 0, reader.rowsLeft
    {
      entries := entries + [entry.value];
      entry := reader.Next();
    }
  }
}
