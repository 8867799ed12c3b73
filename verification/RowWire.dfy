/** Pushed-row messages: their layout, and the reader that walks one.

    A message is a script of items followed by bytes that mean nothing. */
module RowWire {
  import opened PsTypes
  import opened WireBytes

  const Separator: int := -1
  const TableEnd: int := -2

  datatype Item = TableItem(id: int) | RowItem(id: int, data: seq<byte>) | SepItem | EndItem

  datatype PushedRow = PushedRow(table: int, row: int, data: seq<byte>)

  /** Ids are non-negative, which keeps them apart from the two marks. */
  predicate Fits(item: Item) {
    match item
    case TableItem(id) => 0 <= id && IsInt32(id)
    case RowItem(id, data) => 0 <= id && IsInt32(id) && IsUInt64(|data|)
    case _ => true
  }

  /** The int32 an item starts with, and how many bytes it takes. */
  function Head(item: Item): int {
    match item
    case TableItem(id) => id
    case RowItem(id, _) => id
    case SepItem => Separator
    case EndItem => TableEnd
  }

  function Len(item: Item): nat {
    if item.RowItem? then 4 + 8 + |item.data| else 4
  }

  /** The two marks as bytes: no id, which is not negative, looks like them. */
  lemma {:induction false} Marks(id: int)
    requires 0 <= id && IsInt32(id)
    ensures Enc32(Head(SepItem)) == [255, 255, 255, 255] && Enc32(Head(EndItem)) == [254, 255, 255, 255]
    ensures Enc32(id)[3] < 128
  {
    LittleEndian(id);
    LittleEndian(-1);
    LittleEndian(-2);
  }

  /** `item` is laid out in `mem` at `at`. */
  ghost predicate Laid(mem: seq<byte>, at: nat, item: Item) {
    && at + Len(item) <= |mem|
    && Dec32(mem[at..at + 4]) == Head(item)
    && (item.RowItem? ==>
          Dec64(mem[at + 4..at + 12]) == |item.data| && mem[at + 12..at + 12 + |item.data|] == item.data)
  }

  /** Where a script ends. */
  ghost function Size(script: seq<Item>): nat {
    if script == [] then 0 else Size(script[..|script| - 1]) + Len(script[|script| - 1])
  }

  /** The table the last item belongs to. */
  ghost function TableAt(script: seq<Item>): int {
    if script == [] then -1
    else if script[|script| - 1].TableItem? then script[|script| - 1].id
    else TableAt(script[..|script| - 1])
  }

  /** The rows a script spells out. */
  ghost function RowsIn(script: seq<Item>): seq<PushedRow> {
    if script == [] then []
    else
      var before, last := script[..|script| - 1], script[|script| - 1];
      RowsIn(before) + if last.RowItem? then [PushedRow(TableAt(before), last.id, last.data)] else []
  }

  /** Item `i` of the script stands where the items before it end. */
  ghost predicate InPlace(mem: seq<byte>, script: seq<Item>, i: nat)
    requires i < |script|
  {
    Laid(mem, Size(script[..i]), script[i])
  }

  /** The items of `script` are laid out in `mem`, one after the other. */
  ghost predicate Spelled(mem: seq<byte>, script: seq<Item>) {
    Size(script) <= |mem| && forall i | 0 <= i < |script| :: InPlace(mem, script, i)
  }

  predicate Follows(before: Item, next: Item) {
    match before
    case TableItem(_) => !next.TableItem?
    case RowItem(_, _) => !next.TableItem?
    case SepItem => next.TableItem?
    case EndItem => false
  }

  ghost predicate InOrder(script: seq<Item>, i: nat)
    requires i < |script|
  {
    if i == 0 then script[0].TableItem? || script[0].EndItem? else Follows(script[i - 1], script[i])
  }

  /** A message starts with a table or the end mark, and its items are in order. */
  ghost predicate Grammar(script: seq<Item>) {
    (forall item | item in script :: Fits(item)) && forall i | 0 <= i < |script| :: InOrder(script, i)
  }

  ghost predicate Ended(script: seq<Item>) {
    script != [] && script[|script| - 1].EndItem?
  }

  /** `data` is the script and then rubbish that no reader looks at. */
  ghost predicate Carries(data: seq<byte>, script: seq<Item>) {
    && script != [] && Grammar(script) && Spelled(data, script)
    && (Ended(script) || |data| < Size(script) + 4)
  }

  /** What any reader finds in `data`. */
  ghost predicate Reads(data: seq<byte>, rows: seq<PushedRow>) {
    exists script :: Carries(data, script) && RowsIn(script) == rows
  }

  lemma Append(script: seq<Item>, item: Item)
    ensures Size(script + [item]) == Size(script) + Len(item)
    ensures TableAt(script + [item]) == if item.TableItem? then item.id else TableAt(script)
    ensures RowsIn(script + [item]) == RowsIn(script) + if item.RowItem? then [PushedRow(TableAt(script), item.id, item.data)] else []
  {
    assert (script + [item])[..|script|] == script;
  }

  /** Reading one item more. */
  lemma Step(script: seq<Item>, i: nat)
    requires i < |script|
    ensures Size(script[..i + 1]) == Size(script[..i]) + Len(script[i])
    ensures TableAt(script[..i + 1]) == if script[i].TableItem? then script[i].id else TableAt(script[..i])
    ensures RowsIn(script[..i + 1]) == RowsIn(script[..i]) +
              if script[i].RowItem? then [PushedRow(TableAt(script[..i]), script[i].id, script[i].data)] else []
  {
    assert script[..i + 1] == script[..i] + [script[i]];
    Append(script[..i], script[i]);
  }

  lemma NothingAfterEnd(script: seq<Item>, i: nat)
    requires Grammar(script) && i < |script| && script[i].EndItem?
    ensures i + 1 == |script| && RowsIn(script) == RowsIn(script[..i])
  {
    assert i + 1 < |script| ==> InOrder(script, i + 1);
    assert script[..i + 1] == script;
    Step(script, i);
  }

  class SerializedRowReader {
    const mem: seq<byte>
    var offset: nat
    var table: int

    ghost const script: seq<Item>
    ghost var at: nat

    /** The first `at` items have been read. */
    ghost predicate Valid()
      reads this
    {
      Carries(mem, script) && at <= |script| && offset == Size(script[..at])
    }

    /** The reader stands inside a table. */
    ghost predicate InTable()
      reads this
    {
      1 <= at <= |script| && (script[at - 1].TableItem? || script[at - 1].RowItem?) && table == TableAt(script[..at])
    }

    constructor (data: seq<byte>, ghost items: seq<Item>)
      requires Carries(data, items)
      ensures Valid() && mem == data && script == items && at == 0
    {
      mem, offset, table, script, at := data, 0, 0, items, 0;
    }

    /** Reads the next int32 if there is room for one. */
    method ReadInt() returns (x: Option<int>)
      requires Valid() && (at > 0 ==> !script[at - 1].EndItem?)
      modifies this`offset
      ensures x.None? ==> at == |script| && script[..at] == script
      ensures x.Some? ==> at < |script| && x.value == Head(script[at]) && offset == old(offset) + 4
    {
      if at < |script| {
        assert InPlace(mem, script, at);
      } else {
        assert script[..at] == script;
      }
      if offset + 4 > |mem| {
        return None;
      }
      x := Some(Dec32(mem[offset..offset + 4]));
      offset := offset + 4;
    }

    /** The first int32 names a table, unless it is the end mark. */
    method Restart() returns (more: bool)
      requires Valid() && at == 0
      modifies this
      ensures Valid() && at == 1 && (more <==> !script[0].EndItem?) && (more ==> InTable())
      ensures RowsIn(script[..1]) == []
    {
      var x := ReadInt();
      table := x.value;
      at := 1;
      Step(script, 0);
      assert script[0] in script && InOrder(script, 0) && script[..0] == [];
      more := table != TableEnd;
    }

    /** The next row, or None when the message holds no more. */
    method Next() returns (row: Option<PushedRow>)
      requires Valid() && InTable()
      modifies this
      ensures row.None? ==> RowsIn(script) == RowsIn(script[..old(at)])
      ensures row.Some? ==> Valid() && InTable() && at > old(at) && RowsIn(script[..at]) == RowsIn(script[..old(at)]) + [row.value]
    {
      ghost var start := at;
      var head := ReadInt();
      while head.Some? && head.value == Separator
        invariant Carries(mem, script) && start <= at <= |script| && InTable()
        invariant RowsIn(script[..at]) == RowsIn(script[..start])
        invariant head.None? ==> script[..at] == script
        invariant head.Some? ==> at < |script| && head.value == Head(script[at]) && offset == Size(script[..at]) + 4
        decreases |script| - at
      {
        head := NextTable();
        if head.None? {
          return None;
        }
      }
      if head.None? || head.value == TableEnd {
        if head.Some? {
          assert script[at] in script;
          NothingAfterEnd(script, at);
        }
        return None;
      }
      var r := TakeRow(head.value);
      row := Some(r);
    }

    /** The rest of a row whose id has been read. */
    method TakeRow(id: int) returns (row: PushedRow)
      requires Carries(mem, script) && InTable() && at < |script| && Head(script[at]) == id != Separator && id != TableEnd
      requires offset == Size(script[..at]) + 4
      modifies this
      ensures Valid() && InTable() && at == old(at) + 1 && RowsIn(script[..at]) == RowsIn(script[..old(at)]) + [row]
    {
      assert InPlace(mem, script, at) && InOrder(script, at);
      Step(script, at);
      var size := Dec64(mem[offset..offset + 8]);
      offset := offset + 8;
      row := PushedRow(table, id, mem[offset..offset + size]);
      offset := offset + size;
      at := at + 1;
    }

    /** After a separator: the next table, and the int32 after that. */
    method NextTable() returns (head: Option<int>)
      requires Carries(mem, script) && InTable() && at < |script| && Head(script[at]) == Separator
      requires offset == Size(script[..at]) + 4
      modifies this
      ensures head.None? ==> RowsIn(script) == RowsIn(script[..old(at)])
      ensures head.Some? ==> InTable() && old(at) < at < |script| && head.value == Head(script[at]) && offset == Size(script[..at]) + 4
      ensures head.Some? ==> RowsIn(script[..at]) == RowsIn(script[..old(at)])
    {
      PassSeparator(script, at);
      at := at + 1;
      head := ReadInt();
      if head.None? {
        return;
      }
      PassTable(script, at);
      table := head.value;
      at := at + 1;
      head := ReadInt();
    }
  }

  lemma PassSeparator(script: seq<Item>, i: nat)
    requires Grammar(script) && i < |script| && Head(script[i]) == Separator
    ensures script[i].SepItem? && Size(script[..i + 1]) == Size(script[..i]) + 4 && RowsIn(script[..i + 1]) == RowsIn(script[..i])
  {
    assert script[i] in script;
    Step(script, i);
  }

  lemma PassTable(script: seq<Item>, i: nat)
    requires Grammar(script) && 0 < i < |script| && script[i - 1].SepItem?
    ensures script[i].TableItem? && Size(script[..i + 1]) == Size(script[..i]) + 4 && RowsIn(script[..i + 1]) == RowsIn(script[..i])
    ensures TableAt(script[..i + 1]) == Head(script[i])
  {
    assert InOrder(script, i);
    Step(script, i);
  }

  /** ApplyServerPushedRow's loop: every row of the message, in order, under its table. */
  method ReadRows(data: seq<byte>, ghost rows: seq<PushedRow>) returns (read: seq<PushedRow>)
    requires Reads(data, rows)
    ensures read == rows
  {
    ghost var script :| Carries(data, script) && RowsIn(script) == rows;
    var reader := new SerializedRowReader(data, script);
    read := [];
    var more := reader.Restart();
    if !more {
      NothingAfterEnd(script, 0);
      assert script[..0] == [];
      return;
    }
    var row := reader.Next();
    while row.Some?
      invariant reader.script == script && fresh(reader)
      invariant row.Some? ==> reader.Valid() && reader.InTable() && RowsIn(script[..reader.at]) == read + [row.value]
      invariant row.None? ==> RowsIn(script) == read
      decreases if row.Some? then |script| - reader.at + 1 else 0
    {
      read := read + [row.value];
      row := reader.Next();
    }
  }
}
