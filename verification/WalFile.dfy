/** The write-ahead log as it runs (broker/wal.go): bytes found on start, records appended one by
    one, and the whole file rewritten by a compaction. */
module WalFile {
  import opened Tasks
  import opened WalCodec

  lemma EncodeNext(c: Codec, es: seq<LogEntry>, e: LogEntry)
    ensures EncodeAll(c, es + [e]) == EncodeAll(c, es) + EncodeEntry(c, e)
  {
    EncodeAllConcat(c, es, [e]);
    assert EncodeAll(c, [e]) == EncodeEntry(c, e) + EncodeAll(c, []);
  }

  // ---------------------------------------------------------------- replaying part of a file

  lemma NextDepends(c: Codec, file: Bytes, file': Bytes, offset: nat)
    requires offset <= |file| && offset <= |file'| && NextEntry(c, file, offset).Some?
    ensures var n := NextEntry(c, file, offset).value.1;
            && offset + n <= |file|
            && (offset + n <= |file'| && file[..offset + n] == file'[..offset + n] ==>
                  NextEntry(c, file', offset) == NextEntry(c, file, offset))
  {
    hide ReadRecord, FromRecord;
    NextEntryFits(c, file, offset);
    var n := NextEntry(c, file, offset).value.1;
    ReadDepends(c, file[offset..], file'[offset..]);
    if offset + n <= |file'| && file[..offset + n] == file'[..offset + n] {
      assert file[offset..][..n] == file[..offset + n][offset..];
      assert file'[offset..][..n] == file'[..offset + n][offset..];
    }
  }

  /** Replaying goes through a part that replays completely and goes on behind it. */
  lemma {:induction false} ReplayLonger(c: Codec, head: Bytes, rest: Bytes, offset: nat)
    requires offset <= |head| && ReplayFrom(c, head, offset).valid == |head|
    ensures var after := ReplayFrom(c, head + rest, |head|);
            ReplayFrom(c, head + rest, offset)
            == Replayed(ReplayFrom(c, head, offset).entries + after.entries, after.valid)
    decreases |head| - offset
  {
    hide ReplayFrom, NextEntry;
    var file := head + rest;
    ReplayOne(c, head, offset);
    match NextEntry(c, head, offset) {
      case None =>
        assert [] + ReplayFrom(c, file, |head|).entries == ReplayFrom(c, file, |head|).entries;
      case Some((e, n)) =>
        NextDepends(c, head, file, offset);
        assert file[..offset + n] == head[..offset + n];
        ReplayOne(c, file, offset);
        ReplayLonger(c, head, rest, offset + n);
        var es, more := ReplayFrom(c, head, offset + n).entries, ReplayFrom(c, file, |head|).entries;
        assert [e] + (es + more) == ([e] + es) + more;
    }
  }

  /** Replaying reads the next entry and goes on behind it, or stops. */
  lemma ReplayOne(c: Codec, file: Bytes, offset: nat)
    requires offset <= |file|
    ensures NextEntry(c, file, offset).None? ==> ReplayFrom(c, file, offset) == Replayed([], offset)
    ensures NextEntry(c, file, offset).Some? ==>
              var (e, n) := NextEntry(c, file, offset).value;
              && 0 < n && offset + n <= |file|
              && var after := ReplayFrom(c, file, offset + n);
                 ReplayFrom(c, file, offset) == Replayed([e] + after.entries, after.valid)
  {
    hide NextEntry;
    if NextEntry(c, file, offset).Some? {
      NextEntryFits(c, file, offset);
    }
  }

  /** What the scan keeps of a file replays completely, to the same entries. */
  lemma {:induction false} ReplayKept(c: Codec, file: Bytes, offset: nat)
    requires offset <= |file|
    ensures var r := ReplayFrom(c, file, offset);
            ReplayFrom(c, file[..r.valid], offset) == r
    decreases |file| - offset
  {
    hide ReplayFrom, NextEntry;
    var v := ReplayFrom(c, file, offset).valid;
    ReplayOne(c, file, offset);
    ReplayOne(c, file[..v], offset);
    match NextEntry(c, file, offset) {
      case None => NothingNext(c, file[..v]);
      case Some((e, n)) =>
        ReplayKept(c, file, offset + n);
        NextDepends(c, file, file[..v], offset);
        assert file[..v][..offset + n] == file[..offset + n];
    }
  }

  lemma NothingNext(c: Codec, file: Bytes)
    ensures NextEntry(c, file, |file|) == None
  {
    assert file[|file|..] == [];
  }

  /** The file reads back as `log`, to its last byte. */
  ghost predicate ReadsAs(c: Codec, file: Bytes, log: seq<LogEntry>) {
    ReplayAll(c, file) == Replayed(log, |file|)
  }

  lemma OneEntryReads(c: Codec, file: Bytes, e: LogEntry)
    requires c.Valid() && WellFormed(e)
    ensures ReplayFrom(c, file + EncodeEntry(c, e), |file|) == Replayed([e], |file + EncodeEntry(c, e)|) <==> Fits(c, e)
  {
    hide ReadRecord, FromRecord, PutU32, Checksum;
    var file' := file + EncodeEntry(c, e);
    assert file'[|file|..] == EncodeEntry(c, e);
    EncodedLayout(c, ToRecord(c, e), EncodeEntry(c, e));
    NothingNext(c, file');
    if Fits(c, e) {
      EntryReadsBack(c, e, []);
      assert EncodeEntry(c, e) + [] == EncodeEntry(c, e);
    } else if NextEntry(c, file', |file|).Some? {
      WrittenRead(c, file'[|file|..]);
      SizeOf(c, file'[|file|..]);
      var n := NextEntry(c, file', |file|).value.1;
      assert ReplayFrom(c, file', |file| + n).entries == [] ==> ReplayFrom(c, file', |file| + n).valid == |file| + n;
    }
  }

  lemma SizeOf(c: Codec, b: Bytes)
    requires ReadRecord(c, b).Got?
    ensures ReadRecord(c, b).size <= HEADER + MAX_PAYLOAD + 4
  {
  }

  /** Appending to a file that reads back: the longer file reads back, the new entry included, if
      and only if the entry is within the reader's cap. */
  lemma AppendReadsExactly(c: Codec, file: Bytes, log: seq<LogEntry>, e: LogEntry)
    requires c.Valid() && WellFormed(e) && ReadsAs(c, file, log)
    ensures ReadsAs(c, file + EncodeEntry(c, e), log + [e]) <==> Fits(c, e)
  {
    hide EncodeEntry, ReplayFrom;
    var file' := file + EncodeEntry(c, e);
    ReplayLonger(c, file, EncodeEntry(c, e), 0);
    OneEntryReads(c, file, e);
    var after := ReplayFrom(c, file', |file|);
    if log + after.entries == log + [e] {
      assert after.entries == (log + after.entries)[|log|..] == (log + [e])[|log|..] == [e];
    }
  }

  lemma EmptyReads(c: Codec)
    ensures ReadsAs(c, [], []) && EncodeAll(c, []) == []
  {
    NothingNext(c, []);
  }

  lemma RewrittenReads(c: Codec, es: seq<LogEntry>)
    requires c.Valid() && AllWritable(c, es)
    ensures ReadsAs(c, EncodeAll(c, es), es)
  {
    EmptyIsEof(c);
    ReplayWhole(c, [], es, []);
    assert [] + EncodeAll(c, es) + [] == EncodeAll(c, es);
  }

  /** The four length bytes hold the payload's length. */
  predicate Measurable(c: Codec, e: LogEntry) {
    |ToRecord(c, e).payload| < 0x1_0000_0000
  }

  /** The first entry that cannot be read back as itself ends or changes what is read. */
  lemma FirstUnwritable(c: Codec, es: seq<LogEntry>, k: nat)
    requires c.Valid() && k < |es| && AllWritable(c, es[..k]) && !Writable(c, es[k]) && Measurable(c, es[k])
    ensures !ReadsAs(c, EncodeAll(c, es), es)
  {
    hide ReplayFrom, ReadRecord, EncodeRecord;
    var head, rest := EncodeAll(c, es[..k]), EncodeAll(c, es[k + 1..]);
    var file, tail := EncodeAll(c, es), EncodeEntry(c, es[k]) + rest;
    assert es == es[..k] + es[k..];
    EncodeAllConcat(c, es[..k], es[k..]);
    assert es[k..][1..] == es[k + 1..];
    assert file == head + tail;
    RewrittenReads(c, es[..k]);
    ReplayLonger(c, head, tail, 0);
    ReplayOne(c, file, |head|);
    assert file[|head|..] == tail;
    if Fits(c, es[k]) {
      ReadWritten(c, ToRecord(c, es[k]), rest);
      assert NextEntry(c, file, |head|).Some? ==> NextEntry(c, file, |head|).value.0 != es[k];
      assert forall more: seq<LogEntry>, e :: es[..k] + ([e] + more) == es ==> e == es[k] by {
        forall more: seq<LogEntry>, e | es[..k] + ([e] + more) == es ensures e == es[k] {
          assert (es[..k] + ([e] + more))[k] == e;
        }
      }
    } else {
      OversizedIsCorrupt(c, ToRecord(c, es[k]), rest);
      assert es[..k] + [] == es[..k];
    }
  }

  lemma {:induction false} FirstBad(c: Codec, es: seq<LogEntry>) returns (k: nat)
    requires !AllWritable(c, es)
    ensures k < |es| && AllWritable(c, es[..k]) && !Writable(c, es[k])
  {
    hide Writable;
    var n := |es| - 1;
    if AllWritable(c, es[..n]) {
      k := n;
      assert forall i :: 0 <= i < n ==> es[..n][i] == es[i];
    } else {
      k := FirstBad(c, es[..n]);
      assert es[..n][..k] == es[..k] && es[..n][k] == es[k];
    }
  }

  /** A rewritten file reads back as its entries if and only if all of them are as the broker
      writes them and within the reader's cap. */
  lemma RewriteReadsExactly(c: Codec, es: seq<LogEntry>)
    requires c.Valid() && forall i :: 0 <= i < |es| ==> Measurable(c, es[i])
    ensures ReadsAs(c, EncodeAll(c, es), es) <==> AllWritable(c, es)
  {
    hide ReadsAs, AllWritable, EncodeAll;
    if AllWritable(c, es) {
      RewrittenReads(c, es);
    } else {
      var k := FirstBad(c, es);
      FirstUnwritable(c, es, k);
    }
  }

  /** A payload one byte over the cap, acknowledged or not, hides itself and every record after it
      from a restart. */
  lemma RecordAfterOversizedIsLost(c: Codec, es: seq<LogEntry>, next: Record)
    requires c.Valid() && AllWritable(c, es)
    ensures ReplayAll(c, EncodeAll(c, es) + (EncodeRecord(c, OVERSIZED) + EncodeRecord(c, next)))
            == Replayed(es, |EncodeAll(c, es)|)
  {
    hide EncodeRecord, ReadRecord, ReplayFrom, EncodeAll;
    var rest := EncodeRecord(c, OVERSIZED) + EncodeRecord(c, next);
    OversizedIsCorrupt(c, OVERSIZED, EncodeRecord(c, next));
    ReplayWhole(c, [], es, rest);
    assert [] + EncodeAll(c, es) + rest == EncodeAll(c, es) + rest;
  }

  // ---------------------------------------------------------------- the log

  class WriteAheadLog {
    const c: Codec
    var file: Bytes
    var entries: nat
    var writeSeq: nat
    var syncedSeq: nat
    ghost var head: Bytes                 // what the scan on start kept
    ghost var found: seq<LogEntry>       // and what it says
    ghost var written: seq<LogEntry>      // what was appended since, or rewritten

    /** Everything the log was told. */
    ghost function Log(): seq<LogEntry>
      reads this
    {
      found + written
    }

    ghost predicate Valid()
      reads this
    {
      && c.Valid() && syncedSeq <= writeSeq
      && ReadsAs(c, head, found) && file == head + EncodeAll(c, written)
    }

    /** A restart would read back everything the log was told. */
    ghost predicate Readable()
      reads this
    {
      ReadsAs(c, file, Log())
    }

    /** Opens a file with any content: the scan keeps what reads and cuts off the rest. */
    constructor (c: Codec, bytes: Bytes)
      requires c.Valid()
      ensures Valid() && Readable() && this.c == c && file <= bytes
      ensures Log() == ReplayAll(c, bytes).entries && entries == writeSeq == syncedSeq == 0
    {
      var replayed, kept := Replay(c, bytes);
      this.c, file, entries, writeSeq, syncedSeq := c, kept, 0, 0, 0;
      head, found, written := kept, replayed, [];
      new;
      ReplayKept(c, bytes, 0);
      assert found + [] == found && head + [] == head;
    }

    /** Reads the log from the beginning. */
    method ReadAll() returns (es: seq<LogEntry>)
      requires Valid() && Readable()
      ensures es == Log()
    {
      var kept;
      es, kept := Replay(c, file);
    }

    method Append(op: Byte, payload: Bytes) returns (record: nat)
      modifies this`file, this`entries, this`writeSeq
      ensures file == old(file) + EncodeRecord(c, Record(op, payload))
      ensures entries == old(entries) + 1 && record == writeSeq == old(writeSeq) + 1
    {
      file := file + EncodeRecord(c, Record(op, payload));
      entries, writeSeq := entries + 1, writeSeq + 1;
      record := writeSeq;
    }

    /** The entry is in the log; the file stays readable if and only if the entry fits. */
    twostate predicate Appended(e: LogEntry, record: nat)
      reads this
    {
      && Log() == old(Log()) + [e]
      && record == writeSeq == old(writeSeq) + 1
      && entries == old(entries) + 1 && syncedSeq == old(syncedSeq)
      && (old(Readable()) ==> (Readable() <==> Fits(c, e)))
    }

    method AppendTask(t: Task) returns (record: nat)
      requires Valid()
      modifies this
      ensures Valid() && Appended(EnqueueEntry(t), record)
    {
      hide EncodeRecord, EncodeAll;
      ghost var e := EnqueueEntry(t);
      EncodeNext(c, written, e);
      record := Append(OP_ENQUEUE, c.encodeTask(t));
      Extend(e);
    }

    method AppendId(op: Byte, id: string) returns (record: nat)
      requires Valid() && op != OP_ENQUEUE
      modifies this
      ensures Valid() && Appended(IdEntry(op, id), record)
    {
      hide EncodeRecord, EncodeAll;
      ghost var e := IdEntry(op, id);
      EncodeNext(c, written, e);
      record := Append(op, c.idBytes(id));
      Extend(e);
    }

    ghost method Extend(e: LogEntry)
      requires c.Valid() && WellFormed(e) && syncedSeq <= writeSeq && ReadsAs(c, head, found)
      requires file == head + EncodeAll(c, written) + EncodeEntry(c, e)
      modifies this`written
      ensures Valid() && Log() == old(Log()) + [e]
      ensures ReadsAs(c, head + EncodeAll(c, old(written)), old(Log())) ==> (Readable() <==> Fits(c, e))
    {
      hide EncodeEntry, EncodeAll, ReadsAs;
      var before := head + EncodeAll(c, written);
      EncodeNext(c, written, e);
      if ReadsAs(c, before, Log()) {
        AppendReadsExactly(c, before, Log(), e);
      }
      assert before + EncodeEntry(c, e) == head + (EncodeAll(c, written) + EncodeEntry(c, e));
      assert found + (written + [e]) == found + written + [e];
      written := written + [e];
    }

    /** Replaces the whole file; every record written before counts as synced. */
    method Rewrite(es: seq<LogEntry>)
      requires Valid() && forall i :: 0 <= i < |es| && es[i].op == OP_ENQUEUE ==> es[i].task.Some?
      modifies this
      ensures Valid() && Log() == es && entries == 0 && syncedSeq == writeSeq == old(writeSeq)
      ensures AllWritable(c, es) ==> Readable()
      ensures (forall i :: 0 <= i < |es| ==> Measurable(c, es[i])) ==> (Readable() <==> AllWritable(c, es))
    {
      hide EncodeRecord, EncodeAll, ReadsAs;
      EmptyReads(c);
      var bytes: Bytes := [];
      for i := 0 to |es|
        invariant bytes == EncodeAll(c, es[..i])
        modifies {}
      {
        var e := es[i];
        EncodeNext(c, es[..i], e);
        assert es[..i] + [e] == es[..i + 1];
        var payload := if e.op == OP_ENQUEUE then c.encodeTask(e.task.value) else c.idBytes(e.taskId);
        bytes := bytes + EncodeRecord(c, Record(e.op, payload));
      }
      assert es[..|es|] == es;
      file, entries, syncedSeq := bytes, 0, writeSeq;
      head, found, written := [], [], es;
      assert [] + es == es && [] + EncodeAll(c, es) == EncodeAll(c, es);
      if AllWritable(c, es) {
        RewrittenReads(c, es);
      }
      if forall i :: 0 <= i < |es| ==> Measurable(c, es[i]) {
        RewriteReadsExactly(c, es);
      }
    }
  }
}
