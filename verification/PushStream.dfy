/** What the server writes to one bg thread in a push: a buffer of fixed capacity that is sent
    and started afresh whenever the next thing does not fit. */
module PushStream {
  import opened PsTypes
  import opened WireBytes
  import opened RowWire

  /** RecordBuff: everything before `offset` is in use. */
  datatype RecordBuff = RecordBuff(mem: seq<byte>, offset: nat)

  datatype Message = Message(data: seq<byte>, isClock: bool)

  datatype Stream = Stream(buff: RecordBuff, sent: seq<Message>)

  /** GetMemPtrInt32 and the store through it. */
  function PutInt(b: RecordBuff, x: int): (r: Option<RecordBuff>)
    requires IsInt32(x)
    ensures r.Some? ==> r.value.offset <= |r.value.mem| == |b.mem|
  {
    if b.offset + 4 > |b.mem| then None
    else Some(RecordBuff(Splice(b.mem, b.offset, Enc32(x)), b.offset + 4))
  }

  /** RecordBuff::Append: all of the record, or nothing. */
  function PutRow(b: RecordBuff, id: int, data: seq<byte>): Option<RecordBuff>
    requires IsInt32(id) && IsUInt64(|data|)
  {
    if b.offset + 4 + |data| + 8 > |b.mem| then None
    else Some(RecordBuff(Splice(b.mem, b.offset, Enc32(id) + Enc64(|data|) + data), b.offset + 4 + 8 + |data|))
  }

  // ------------------------------------------------ one buffer

  /** The buffer spells the script, which is not finished. */
  ghost predicate Written(b: RecordBuff, script: seq<Item>) {
    b.offset == Size(script) && Spelled(b.mem, script) && Grammar(script) && !Ended(script)
  }

  ghost predicate CanFollow(script: seq<Item>, item: Item) {
    Fits(item) && if script == [] then item.TableItem? || item.EndItem? else Follows(script[|script| - 1], item)
  }

  lemma SliceStays(mem: seq<byte>, mem': seq<byte>, i: nat, j: nat, n: nat)
    requires i <= j <= n <= |mem| && n <= |mem'| && mem'[..n] == mem[..n]
    ensures mem'[i..j] == mem[i..j]
  {
    forall k | i <= k < j ensures mem'[k] == mem[k] {
      assert mem'[..n][k] == mem[..n][k];
    }
  }

  /** Bytes before the end of an item keep it in place. */
  lemma LaidStays(mem: seq<byte>, mem': seq<byte>, at: nat, item: Item, n: nat)
    requires Laid(mem, at, item) && at + Len(item) <= n <= |mem| && n <= |mem'| && mem'[..n] == mem[..n]
    ensures Laid(mem', at, item)
  {
    SliceStays(mem, mem', at, at + 4, n);
    if item.RowItem? {
      SliceStays(mem, mem', at + 4, at + 12, n);
      SliceStays(mem, mem', at + 12, at + Len(item), n);
    }
  }

  lemma {:induction false} SizeGrows(script: seq<Item>, i: nat)
    requires i < |script|
    ensures Size(script[..i]) + Len(script[i]) <= Size(script)
    decreases |script|
  {
    var before := script[..|script| - 1];
    if i < |script| - 1 {
      SizeGrows(before, i);
      assert before[..i] == script[..i];
    }
  }

  lemma SpelledStays(mem: seq<byte>, mem': seq<byte>, script: seq<Item>)
    requires Spelled(mem, script) && Size(script) <= |mem'| && mem'[..Size(script)] == mem[..Size(script)]
    ensures Spelled(mem', script)
  {
    forall i | 0 <= i < |script| ensures InPlace(mem', script, i) {
      assert InPlace(mem, script, i);
      SizeGrows(script, i);
      LaidStays(mem, mem', Size(script[..i]), script[i], Size(script));
    }
  }

  lemma SpelledMore(mem: seq<byte>, script: seq<Item>, item: Item)
    requires Spelled(mem, script) && Laid(mem, Size(script), item)
    ensures Spelled(mem, script + [item])
  {
    var script' := script + [item];
    Append(script, item);
    forall i | 0 <= i < |script'| ensures InPlace(mem, script', i) {
      if i < |script| {
        assert InPlace(mem, script, i) && script'[..i] == script[..i];
      } else {
        assert script'[..i] == script;
      }
    }
  }

  lemma GrammarMore(script: seq<Item>, item: Item)
    requires Grammar(script) && CanFollow(script, item)
    ensures Grammar(script + [item])
  {
    var script' := script + [item];
    forall i | 0 <= i < |script'| ensures InOrder(script', i) {
      if i < |script| {
        assert InOrder(script, i);
      }
    }
  }

  /** Writing one more item. */
  lemma PutItem(b: RecordBuff, script: seq<Item>, item: Item, b': RecordBuff)
    requires Written(b, script) && CanFollow(script, item) && b'.offset == b.offset + Len(item) <= |b.mem| == |b'.mem|
    requires b'.mem[..b.offset] == b.mem[..b.offset] && Laid(b'.mem, b.offset, item)
    ensures b'.offset == Size(script + [item]) && Spelled(b'.mem, script + [item]) && Grammar(script + [item])
    ensures !item.EndItem? ==> Written(b', script + [item])
  {
    SpelledStays(b.mem, b'.mem, script);
    SpelledMore(b'.mem, script, item);
    GrammarMore(script, item);
    Append(script, item);
  }

  lemma PutIntOk(b: RecordBuff, script: seq<Item>, item: Item)
    requires Written(b, script) && CanFollow(script, item) && !item.RowItem?
    ensures IsInt32(Head(item))
    ensures PutInt(b, Head(item)).Some? <==> Size(script) + 4 <= |b.mem|
    ensures PutInt(b, Head(item)).Some? ==>
      var b' := PutInt(b, Head(item)).value;
      && |b'.mem| == |b.mem| && b'.offset == Size(script + [item]) && Spelled(b'.mem, script + [item]) && Grammar(script + [item])
      && (!item.EndItem? ==> Written(b', script + [item]))
  {
    if b.offset + 4 <= |b.mem| {
      Int32RoundTrip(Head(item));
      PutItem(b, script, item, PutInt(b, Head(item)).value);
    }
  }

  lemma PutRowOk(b: RecordBuff, script: seq<Item>, id: int, data: seq<byte>)
    requires var item := RowItem(id, data); Written(b, script) && CanFollow(script, item)
    ensures PutRow(b, id, data).Some? <==> Size(script) + 12 + |data| <= |b.mem|
    ensures PutRow(b, id, data).Some? ==>
      |PutRow(b, id, data).value.mem| == |b.mem| && Written(PutRow(b, id, data).value, script + [RowItem(id, data)])
  {
    if b.offset + 12 + |data| <= |b.mem| {
      var b' := PutRow(b, id, data).value;
      RowLaid(b.mem, b.offset, id, data);
      PutItem(b, script, RowItem(id, data), b');
    }
  }

  /** The bytes of a record, one after the other: the row's id, its length, and its data. */
  lemma {:induction false} RowBytes(b: RecordBuff, id: int, data: seq<byte>)
    requires IsInt32(id) && IsUInt64(|data|) && b.offset + 12 + |data| <= |b.mem|
    ensures var b' := PutRow(b, id, data);
      && b'.Some? && b'.value.offset == b.offset + 12 + |data|
      && b'.value.mem[b.offset..b.offset + 4] == Enc32(id)
      && b'.value.mem[b.offset + 4..b.offset + 12] == Enc64(|data|)
      && b'.value.mem[b.offset + 12..b.offset + 12 + |data|] == data
  {
    var at, bytes := b.offset, Enc32(id) + Enc64(|data|) + data;
    var mem' := Splice(b.mem, at, bytes);
    assert mem'[at..at + |bytes|] == bytes;
    assert mem'[at..at + 4] == bytes[..4] && mem'[at + 4..at + 12] == bytes[4..12] && mem'[at + 12..at + 12 + |data|] == bytes[12..];
  }

  lemma RowLaid(mem: seq<byte>, at: nat, id: int, data: seq<byte>)
    requires IsInt32(id) && IsUInt64(|data|) && at + 12 + |data| <= |mem|
    ensures Laid(Splice(mem, at, Enc32(id) + Enc64(|data|) + data), at, RowItem(id, data))
  {
    var bytes := Enc32(id) + Enc64(|data|) + data;
    var mem' := Splice(mem, at, bytes);
    var n := 12 + |data|;
    assert mem'[at..at + 4] == mem'[at..at + n][..4] == Enc32(id);
    assert mem'[at + 4..at + 12] == mem'[at..at + n][4..12] == Enc64(|data|);
    assert mem'[at + 12..at + n] == mem'[at..at + n][12..] == data;
    Int32RoundTrip(id);
    UInt64RoundTrip(|data|);
  }

  /** A full buffer, sent whole, reads as its script. */
  lemma FullReads(b: RecordBuff, script: seq<Item>)
    requires Spelled(b.mem, script) && Grammar(script) && script != [] && (Ended(script) || |b.mem| < Size(script) + 4)
    ensures Reads(b.mem, RowsIn(script))
  {
    assert Carries(b.mem, script);
  }

  // ------------------------------------------------ one stream

  /** What a stream has said: `parts[i]` are the rows of message i, `script` is unsent. */
  datatype Trace = Trace(script: seq<Item>, parts: seq<seq<PushedRow>>)

  ghost function Concat(parts: seq<seq<PushedRow>>): seq<PushedRow> {
    if parts == [] then [] else Concat(parts[..|parts| - 1]) + parts[|parts| - 1]
  }

  lemma ConcatMore(parts: seq<seq<PushedRow>>, part: seq<PushedRow>)
    ensures Concat(parts + [part]) == Concat(parts) + part
  {
    assert (parts + [part])[..|parts|] == parts;
  }

  ghost function Said(tr: Trace): seq<PushedRow> {
    Concat(tr.parts) + RowsIn(tr.script)
  }

  ghost predicate PartsOk(sent: seq<Message>, parts: seq<seq<PushedRow>>) {
    |parts| == |sent| && forall i | 0 <= i < |sent| :: Reads(sent[i].data, parts[i])
  }

  ghost predicate StreamOk(st: Stream, tr: Trace, capacity: nat) {
    && |st.buff.mem| == capacity && Written(st.buff, tr.script)
    && PartsOk(st.sent, tr.parts) && forall m | m in st.sent :: !m.isClock
  }

  /** No table is open, or table `t` is. */
  ghost predicate Between(tr: Trace) {
    tr.script == [] || tr.script[|tr.script| - 1].SepItem?
  }

  ghost predicate Inside(tr: Trace, t: int) {
    && tr.script != [] && TableAt(tr.script) == t
    && (tr.script[|tr.script| - 1].TableItem? || tr.script[|tr.script| - 1].RowItem?)
  }

  /** The message goes out whole; its memory is cleared for the next one. */
  function Flush(st: Stream): Stream {
    Stream(RecordBuff(seq(|st.buff.mem|, _ => 0), 0), st.sent + [Message(st.buff.mem, false)])
  }

  lemma FlushOk(st: Stream, script: seq<Item>, parts: seq<seq<PushedRow>>, capacity: nat)
    requires |st.buff.mem| == capacity && Spelled(st.buff.mem, script) && Grammar(script) && script != []
    requires Ended(script) || capacity < Size(script) + 4
    requires PartsOk(st.sent, parts) && forall m | m in st.sent :: !m.isClock
    ensures StreamOk(Flush(st), Trace([], parts + [RowsIn(script)]), capacity)
    ensures Said(Trace([], parts + [RowsIn(script)])) == Concat(parts) + RowsIn(script)
  {
    FullReads(st.buff, script);
    ConcatMore(parts, RowsIn(script));
  }

  function PutTable(st: Stream, t: int): Stream
    requires IsInt32(t) && |st.buff.mem| >= 4
  {
    match PutInt(st.buff, t)
    case Some(b) => st.(buff := b)
    case None => Flush(st).(buff := PutInt(Flush(st).buff, t).value)
  }

  ghost function TableTrace(tr: Trace, t: int, capacity: nat): Trace {
    if Size(tr.script) + 4 <= capacity then tr.(script := tr.script + [TableItem(t)])
    else Trace([TableItem(t)], tr.parts + [RowsIn(tr.script)])
  }

  lemma PutTableOk(st: Stream, tr: Trace, t: int, capacity: nat)
    requires StreamOk(st, tr, capacity) && Between(tr) && Fits(TableItem(t)) && capacity >= 4
    ensures StreamOk(PutTable(st, t), TableTrace(tr, t, capacity), capacity)
    ensures Inside(TableTrace(tr, t, capacity), t) && Said(TableTrace(tr, t, capacity)) == Said(tr)
  {
    PutIntOk(st.buff, tr.script, TableItem(t));
    if PutInt(st.buff, t).Some? {
      Append(tr.script, TableItem(t));
    } else {
      FlushOk(st, tr.script, tr.parts, capacity);
      FreshTable(Flush(st), tr.parts + [RowsIn(tr.script)], t, capacity);
    }
  }

  /** A table id always fits into a fresh buffer. */
  lemma FreshTable(st: Stream, parts: seq<seq<PushedRow>>, t: int, capacity: nat)
    requires StreamOk(st, Trace([], parts), capacity) && Fits(TableItem(t)) && capacity >= 4
    ensures PutInt(st.buff, t).Some?
    ensures StreamOk(st.(buff := PutInt(st.buff, t).value), Trace([TableItem(t)], parts), capacity)
    ensures Inside(Trace([TableItem(t)], parts), t) && RowsIn([TableItem(t)]) == [] && Size([TableItem(t)]) == 4
  {
    PutIntOk(st.buff, [], TableItem(t));
    assert [] + [TableItem(t)] == [TableItem(t)];
    Append([], TableItem(t));
  }

  ghost function RowTrace(tr: Trace, id: int, data: seq<byte>): Trace {
    tr.(script := tr.script + [RowItem(id, data)])
  }

  lemma PutRowTo(st: Stream, tr: Trace, t: int, id: int, data: seq<byte>, capacity: nat)
    requires StreamOk(st, tr, capacity) && Inside(tr, t) && Fits(RowItem(id, data))
    ensures PutRow(st.buff, id, data).Some? <==> Size(tr.script) + 12 + |data| <= capacity
    ensures PutRow(st.buff, id, data).Some? ==>
      && StreamOk(st.(buff := PutRow(st.buff, id, data).value), RowTrace(tr, id, data), capacity)
      && Inside(RowTrace(tr, id, data), t) && Said(RowTrace(tr, id, data)) == Said(tr) + [PushedRow(t, id, data)]
  {
    PutRowOk(st.buff, tr.script, id, data);
    Append(tr.script, RowItem(id, data));
  }

  /** The body of the retry loop: mark the end if there is room, send, and reopen the table. */
  function Reopen(st: Stream, t: int): Stream
    requires IsInt32(t) && |st.buff.mem| >= 4
  {
    var next := FlushEnded(st);
    next.(buff := PutInt(next.buff, t).value)
  }

  function FlushEnded(st: Stream): Stream {
    match PutInt(st.buff, TableEnd)
    case Some(b) => Flush(st.(buff := b))
    case None => Flush(st)
  }

  lemma FlushEndedOk(st: Stream, tr: Trace, t: int, capacity: nat)
    requires StreamOk(st, tr, capacity) && Inside(tr, t)
    ensures StreamOk(FlushEnded(st), Trace([], tr.parts + [RowsIn(tr.script)]), capacity)
  {
    PutIntOk(st.buff, tr.script, EndItem);
    Append(tr.script, EndItem);
    match PutInt(st.buff, TableEnd)
    case Some(b) => FlushOk(st.(buff := b), tr.script + [EndItem], tr.parts, capacity);
    case None => FlushOk(st, tr.script, tr.parts, capacity);
  }

  ghost function ReopenTrace(tr: Trace, t: int): Trace {
    Trace([TableItem(t)], tr.parts + [RowsIn(tr.script)])
  }

  lemma ReopenOk(st: Stream, tr: Trace, t: int, capacity: nat)
    requires StreamOk(st, tr, capacity) && Inside(tr, t) && Fits(TableItem(t)) && capacity >= 4
    ensures StreamOk(Reopen(st, t), ReopenTrace(tr, t), capacity)
    ensures Inside(ReopenTrace(tr, t), t) && Said(ReopenTrace(tr, t)) == Said(tr) && Size(ReopenTrace(tr, t).script) == 4
  {
    FlushEndedOk(st, tr, t, capacity);
    FreshTable(FlushEnded(st), tr.parts + [RowsIn(tr.script)], t, capacity);
    ConcatMore(tr.parts, RowsIn(tr.script));
  }

  /** Resuming gets past the row that failed if and only if one record fits a fresh buffer. */
  lemma ReopenedHasRoom(st: Stream, tr: Trace, t: int, id: int, data: seq<byte>, capacity: nat)
    requires StreamOk(st, tr, capacity) && Inside(tr, t) && Fits(TableItem(t)) && Fits(RowItem(id, data)) && capacity >= 4
    ensures PutRow(Reopen(st, t).buff, id, data).Some? <==> 4 + 12 + |data| <= capacity
  {
    ReopenOk(st, tr, t, capacity);
    PutRowTo(Reopen(st, t), ReopenTrace(tr, t), t, id, data, capacity);
  }

  /** The separator after a table, or a new message when it does not fit. */
  function Separate(st: Stream): Stream {
    match PutInt(st.buff, Separator)
    case Some(b) => st.(buff := b)
    case None => Flush(st)
  }

  ghost function SeparateTrace(tr: Trace, capacity: nat): Trace {
    if Size(tr.script) + 4 <= capacity then tr.(script := tr.script + [SepItem])
    else Trace([], tr.parts + [RowsIn(tr.script)])
  }

  lemma SeparateOk(st: Stream, tr: Trace, t: int, capacity: nat)
    requires StreamOk(st, tr, capacity) && Inside(tr, t)
    ensures StreamOk(Separate(st), SeparateTrace(tr, capacity), capacity)
    ensures Between(SeparateTrace(tr, capacity)) && Said(SeparateTrace(tr, capacity)) == Said(tr)
  {
    PutIntOk(st.buff, tr.script, SepItem);
    Append(tr.script, SepItem);
    if PutInt(st.buff, Separator).None? {
      FlushOk(st, tr.script, tr.parts, capacity);
    }
  }

  /** The last message, which carries the clock. */
  function Finish(st: Stream): seq<Message> {
    match PutInt(st.buff, TableEnd)
    case Some(b) => st.sent + [Message(b.mem[..b.offset], true)]
    case None => st.sent + [Message(st.buff.mem, true)]
  }

  /** Reading all of `msgs` yields `rows`, and exactly the last of them is a clock message. */
  ghost predicate Delivers(msgs: seq<Message>, rows: seq<PushedRow>) {
    && msgs != [] && (forall i | 0 <= i < |msgs| :: msgs[i].isClock <==> i == |msgs| - 1)
    && exists parts :: PartsOk(msgs, parts) && Concat(parts) == rows
  }

  lemma FinishOk(st: Stream, tr: Trace, capacity: nat)
    requires StreamOk(st, tr, capacity) && capacity >= 4 && (tr.script == [] || exists t :: Inside(tr, t))
    ensures Delivers(Finish(st), Said(tr))
    ensures Size(tr.script) + 4 <= capacity ==> |Finish(st)[|Finish(st)| - 1].data| == Size(tr.script) + 4
  {
    var script := tr.script;
    PutIntOk(st.buff, script, EndItem);
    Append(script, EndItem);
    var msgs, parts := Finish(st), tr.parts + [RowsIn(script)];
    ConcatMore(tr.parts, RowsIn(script));
    match PutInt(st.buff, TableEnd)
    case Some(b) =>
      var ended := script + [EndItem];
      SpelledStays(b.mem, b.mem[..b.offset], ended);
      FullReads(RecordBuff(b.mem[..b.offset], b.offset), ended);
      assert PartsOk(msgs, parts);
    case None =>
      FullReads(st.buff, script);
      assert PartsOk(msgs, parts);
  }
}
