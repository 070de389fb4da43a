/** The on-disk format of the write-ahead log (broker/wal.go): framing, checksum, and the scan
    that reads a log back and cuts off a torn tail. Checksum and task serialization are
    parameters: every result holds for any checksum. */
module WalCodec {
  import opened Tasks

  type Bytes = seq<Byte>
  type U32 = n: nat | n < 0x1_0000_0000

  const MAGIC: Bytes := [0x44, 0x51, 0x57, 0x4C]  // "DQWL"
  const HEADER: nat := 9
  const MAX_PAYLOAD: nat := 0x400_0000            // 64 MiB

  /** The pieces the format takes from libraries: CRC-32, gob for tasks, and a string's raw
      bytes. */
  datatype Codec = Codec(
    crc: Bytes -> U32,
    encodeTask: Task -> Bytes,
    decodeTask: Bytes -> Option<Task>,
    idBytes: string -> Bytes,
    idOf: Bytes -> string)
  {
    ghost predicate Valid() {
      && (forall t :: decodeTask(encodeTask(t)) == Some(t))
      && (forall id :: idOf(idBytes(id)) == id)
    }
  }

  // ---------------------------------------------------------------- big-endian words

  function PutU32(n: U32): (b: Bytes)
    ensures |b| == 4
  {
    [n / 0x100 / 0x100 / 0x100, n / 0x100 / 0x100 % 0x100, n / 0x100 % 0x100, n % 0x100]
  }

  function GetU32(b: Bytes): U32
    requires |b| == 4
  {
    var hi: int := b[0];
    ((hi * 0x100 + b[1]) * 0x100 + b[2]) * 0x100 + b[3]
  }

  lemma GetPut(n: U32)
    ensures GetU32(PutU32(n)) == n
  {
  }

  lemma PutGet(b: Bytes)
    requires |b| == 4
    ensures PutU32(GetU32(b)) == b
  {
    var hi: int := b[0];
    var n2 := hi * 0x100 + b[1];
    var n3 := n2 * 0x100 + b[2];
    assert GetU32(b) == n3 * 0x100 + b[3];
    assert (n3 * 0x100 + b[3]) / 0x100 == n3 && n3 / 0x100 == n2 && n2 / 0x100 == hi;
  }

  // ---------------------------------------------------------------- one record

  datatype Record = Record(op: Byte, payload: Bytes)

  /** The outcome of reading one record: a clean end, a torn or corrupt record, or a record and
      how many bytes it took. */
  datatype Read = Eof | Corrupt | Got(record: Record, size: nat)

  function Checksum(c: Codec, r: Record): U32 {
    c.crc([r.op] + r.payload)
  }

  function EncodeRecord(c: Codec, r: Record): Bytes {
    MAGIC + [r.op] + PutU32(|r.payload| % 0x1_0000_0000) + r.payload + PutU32(Checksum(c, r))
  }

  function ReadRecord(c: Codec, b: Bytes): Read {
    if b == [] then Eof
    else if |b| < HEADER then Corrupt
    else if b[..4] != MAGIC then Corrupt
    else
      var size := GetU32(b[5..9]);
      if size > MAX_PAYLOAD then Corrupt
      else if |b| < HEADER + size + 4 then Corrupt
      else
        var r := Record(b[4], b[HEADER..HEADER + size]);
        if Checksum(c, r) != GetU32(b[HEADER + size..HEADER + size + 4]) then Corrupt
        else Got(r, HEADER + size + 4)
  }

  lemma EncodedLayout(c: Codec, r: Record, b: Bytes)
    requires EncodeRecord(c, r) <= b
    ensures var n := |r.payload|;
            && |EncodeRecord(c, r)| == HEADER + n + 4 && |b| >= HEADER + n + 4
            && b[..4] == MAGIC && b[4] == r.op && b[5..9] == PutU32(n % 0x1_0000_0000)
            && b[HEADER..HEADER + n] == r.payload && b[HEADER + n..HEADER + n + 4] == PutU32(Checksum(c, r))
  {
    var n, e := |r.payload|, EncodeRecord(c, r);
    assert e[..4] == MAGIC && e[5..9] == PutU32(n % 0x1_0000_0000);
    assert e[HEADER..HEADER + n] == r.payload && e[HEADER + n..] == PutU32(Checksum(c, r));
    assert b[..4] == e[..4] && b[5..9] == e[5..9] && b[HEADER..HEADER + n] == e[HEADER..HEADER + n];
    assert b[HEADER + n..HEADER + n + 4] == e[HEADER + n..];
  }

  /** The bytes of a record: "DQWL", the operation, the length of the payload, the payload, and the
      checksum of operation and payload; length and checksum with the highest byte first. */
  lemma RecordFormat(c: Codec, r: Record)
    requires |r.payload| < 0x1_0000_0000
    ensures var e, n, crc := EncodeRecord(c, r), |r.payload|, c.crc([r.op] + r.payload);
            && |e| == 13 + n
            && e[0] == 0x44 && e[1] == 0x51 && e[2] == 0x57 && e[3] == 0x4C && e[4] == r.op
            && e[5] as int * 0x100_0000 + e[6] as int * 0x1_0000 + e[7] as int * 0x100 + e[8] as int == n
            && e[9..9 + n] == r.payload
            && e[9 + n] as int * 0x100_0000 + e[10 + n] as int * 0x1_0000 + e[11 + n] as int * 0x100 + e[12 + n] as int
               == crc
  {
    hide PutU32;
    var e, n := EncodeRecord(c, r), |r.payload|;
    EncodedLayout(c, r, e);
    assert e[0] == e[..4][0] && e[1] == e[..4][1] && e[2] == e[..4][2] && e[3] == e[..4][3];
    assert e[5] == e[5..9][0] && e[6] == e[5..9][1] && e[7] == e[5..9][2] && e[8] == e[5..9][3];
    BigEndian(n);
    BigEndian(Checksum(c, r));
    var k := HEADER + n;
    assert e[k] == e[k..k + 4][0] && e[k + 1] == e[k..k + 4][1];
    assert e[k + 2] == e[k..k + 4][2] && e[k + 3] == e[k..k + 4][3];
  }

  lemma BigEndian(n: U32)
    ensures var b := PutU32(n);
            b[0] as int * 0x100_0000 + b[1] as int * 0x1_0000 + b[2] as int * 0x100 + b[3] as int == n
  {
    var n1, n2 := n / 0x100, n / 0x100 / 0x100;
    assert n == n1 * 0x100 + n % 0x100 && n1 == n2 * 0x100 + n1 % 0x100 && n2 == n2 / 0x100 * 0x100 + n2 % 0x100;
  }

  /** Reading what was written gives it back, whatever follows. */
  lemma ReadWritten(c: Codec, r: Record, rest: Bytes)
    requires |r.payload| <= MAX_PAYLOAD
    ensures ReadRecord(c, EncodeRecord(c, r) + rest) == Got(r, |EncodeRecord(c, r)|)
  {
    hide Checksum, PutU32, GetU32;
    var b := EncodeRecord(c, r) + rest;
    EncodedLayout(c, r, b);
    GetPut(|r.payload|);
    GetPut(Checksum(c, r));
  }

  /** The round trip holds exactly up to the reader's cap: the writer does not check it, so a
      record with a larger payload is written and acknowledged but reads back as corrupt. */
  lemma RoundTripExactly(c: Codec, r: Record, rest: Bytes)
    ensures ReadRecord(c, EncodeRecord(c, r) + rest) == Got(r, |EncodeRecord(c, r)|) <==>
            |r.payload| <= 64 * 1024 * 1024
  {
    if |r.payload| <= MAX_PAYLOAD {
      ReadWritten(c, r, rest);
    }
  }

  /** Conversely, a record that reads correctly is the encoding of what was read: no two byte
      strings stand for the same record. */
  lemma WrittenRead(c: Codec, b: Bytes)
    requires ReadRecord(c, b).Got?
    ensures var g := ReadRecord(c, b);
            g.size <= |b| && |g.record.payload| <= MAX_PAYLOAD && b[..g.size] == EncodeRecord(c, g.record)
  {
    hide GetU32, PutU32, Checksum;
    var g := ReadRecord(c, b);
    var n := |g.record.payload|;
    PutGet(b[5..9]);
    PutGet(b[HEADER + n..HEADER + n + 4]);
    assert b[..g.size] == b[..4] + [b[4]] + b[5..9] + b[HEADER..HEADER + n] + b[HEADER + n..g.size];
  }

  /** A record cut short is never taken for itself, and is taken for no record at all as long as
      its length fits the four bytes it is written in. */
  lemma TornIsCorrupt(c: Codec, r: Record, torn: Bytes)
    requires torn <= EncodeRecord(c, r) && |torn| < |EncodeRecord(c, r)|
    ensures ReadRecord(c, torn).Got? ==> ReadRecord(c, torn).record != r
    ensures |r.payload| < 0x1_0000_0000 ==> ReadRecord(c, torn) == if torn == [] then Eof else Corrupt
  {
    hide Checksum, PutU32, GetU32;
    var e, n := EncodeRecord(c, r), |r.payload|;
    EncodedLayout(c, r, e);
    if |torn| >= HEADER {
      assert torn[..4] == e[..4] && torn[5..9] == e[5..9];
      GetPut(n % 0x1_0000_0000);
    }
  }

  /** Whether and how a record reads depends on its own bytes only. */
  lemma ReadDepends(c: Codec, b: Bytes, b': Bytes)
    requires ReadRecord(c, b).Got?
    ensures var n := ReadRecord(c, b).size;
            n <= |b| && (n <= |b'| && b[..n] == b'[..n] ==> ReadRecord(c, b') == ReadRecord(c, b))
  {
    hide Checksum, PutU32, GetU32;
    var g := ReadRecord(c, b);
    var n, k := g.size, |g.record.payload|;
    if n <= |b'| && b[..n] == b'[..n] {
      assert b'[..4] == b'[..n][..4] == b[..4];
      assert b'[4] == b'[..n][4] == b[4];
      assert b'[5..9] == b'[..n][5..9] == b[5..9];
      assert b'[HEADER..HEADER + k] == b'[..n][HEADER..HEADER + k] == b[HEADER..HEADER + k];
      assert b'[HEADER + k..n] == b'[..n][HEADER + k..n] == b[HEADER + k..n];
    }
  }

  /** A payload one byte over the reader's cap. */
  const OVERSIZED := Record(OP_ACK, seq(MAX_PAYLOAD + 1, i => 0))

  /** Reading stops at a record over the cap, whatever follows it. */
  lemma OversizedIsCorrupt(c: Codec, r: Record, rest: Bytes)
    requires MAX_PAYLOAD < |r.payload| < 0x1_0000_0000
    ensures ReadRecord(c, EncodeRecord(c, r) + rest) == Corrupt
  {
    hide Checksum, PutU32, GetU32;
    EncodedLayout(c, r, EncodeRecord(c, r) + rest);
    GetPut(|r.payload|);
  }

  // ---------------------------------------------------------------- log entries

  /** A replayed record: the task for an enqueue, the task id for everything else. */
  datatype LogEntry = LogEntry(op: Byte, taskId: string, task: Option<Task>)

  function EnqueueEntry(t: Task): LogEntry {
    LogEntry(OP_ENQUEUE, t.id, Some(t))
  }

  function IdEntry(op: Byte, id: string): LogEntry {
    LogEntry(op, id, None)
  }

  function ToRecord(c: Codec, e: LogEntry): Record {
    Record(e.op, if e.op == OP_ENQUEUE && e.task.Some? then c.encodeTask(e.task.value) else c.idBytes(e.taskId))
  }

  /** The entry a record stands for; an enqueue whose task does not decode is corrupt. */
  function FromRecord(c: Codec, r: Record): Option<LogEntry> {
    if r.op == OP_ENQUEUE then
      match c.decodeTask(r.payload)
      case None => None
      case Some(t) => Some(EnqueueEntry(t))
    else Some(IdEntry(r.op, c.idOf(r.payload)))
  }

  /** An entry as the broker writes them, of any size. */
  predicate WellFormed(e: LogEntry) {
    if e.op == OP_ENQUEUE then e.task.Some? && e.taskId == e.task.value.id else e.task.None?
  }

  /** The entry is within the reader's cap. */
  predicate Fits(c: Codec, e: LogEntry) {
    |ToRecord(c, e).payload| <= MAX_PAYLOAD
  }

  ghost predicate Writable(c: Codec, e: LogEntry) {
    WellFormed(e) && Fits(c, e)
  }

  function EncodeEntry(c: Codec, e: LogEntry): Bytes {
    EncodeRecord(c, ToRecord(c, e))
  }

  /** The operations on disk: 1 enqueues, 2 acks, 3 nacks and 4 dead-letters. */
  lemma OperationCodes(c: Codec, t: Task, id: string)
    ensures EncodeEntry(c, EnqueueEntry(t))[4] == 1 && EncodeEntry(c, IdEntry(OP_ACK, id))[4] == 2
    ensures EncodeEntry(c, IdEntry(OP_NACK, id))[4] == 3 && EncodeEntry(c, IdEntry(OP_DEAD, id))[4] == 4
  {
  }

  function EncodeAll(c: Codec, es: seq<LogEntry>): Bytes {
    if es == [] then [] else EncodeEntry(c, es[0]) + EncodeAll(c, es[1..])
  }

  // ---------------------------------------------------------------- replay

  /** What the scan makes of a file: the entries up to the first record that does not read, and
      the offset where they end. */
  datatype Replayed = Replayed(entries: seq<LogEntry>, valid: nat)

  /** The next entry of the file from `offset` on, if there is one, and its size. */
  function NextEntry(c: Codec, file: Bytes, offset: nat): Option<(LogEntry, nat)>
    requires offset <= |file|
  {
    match ReadRecord(c, file[offset..])
    case Got(r, size) => (match FromRecord(c, r) case None => None case Some(e) => Some((e, size)))
    case _ => None
  }

  lemma NextEntryFits(c: Codec, file: Bytes, offset: nat)
    requires offset <= |file| && NextEntry(c, file, offset).Some?
    ensures var n := NextEntry(c, file, offset).value.1; 0 < n && offset + n <= |file|
  {
    WrittenRead(c, file[offset..]);
  }

  function ReplayFrom(c: Codec, file: Bytes, offset: nat): (r: Replayed)
    requires offset <= |file|
    ensures offset <= r.valid <= |file|
    decreases |file| - offset
  {
    match NextEntry(c, file, offset)
    case None => Replayed([], offset)
    case Some((e, n)) =>
      NextEntryFits(c, file, offset);
      var rest := ReplayFrom(c, file, offset + n);
      Replayed([e] + rest.entries, rest.valid)
  }

  function ReplayAll(c: Codec, file: Bytes): Replayed {
    ReplayFrom(c, file, 0)
  }

  lemma ReplayStep(c: Codec, file: Bytes, offset: nat, entries: seq<LogEntry>)
    requires offset <= |file| && NextEntry(c, file, offset).Some?
    ensures var (e, n) := NextEntry(c, file, offset).value;
            && 0 < n && offset + n <= |file|
            && ReplayFrom(c, file, offset).valid == ReplayFrom(c, file, offset + n).valid
            && entries + ReplayFrom(c, file, offset).entries
               == (entries + [e]) + ReplayFrom(c, file, offset + n).entries
  {
    hide NextEntry;
    NextEntryFits(c, file, offset);
  }

  /** The scan loop: read records until the file ends or one does not read; then truncate the
      file after the last good one. */
  method Replay(c: Codec, file: Bytes) returns (entries: seq<LogEntry>, kept: Bytes)
    ensures entries == ReplayAll(c, file).entries
    ensures kept == file[..ReplayAll(c, file).valid]
  {
    hide ReadRecord, FromRecord;
    entries := [];
    var valid: nat := 0;
    while true
      invariant valid <= |file|
      invariant ReplayAll(c, file).entries == entries + ReplayFrom(c, file, valid).entries
      invariant ReplayAll(c, file).valid == ReplayFrom(c, file, valid).valid
      decreases |file| - valid
    {
      var read := ReadRecord(c, file[valid..]);
      if read == Eof {
        EofIsEnd(c, file[valid..]);
        kept := file;
        break;
      }
      var entry := if read.Got? then FromRecord(c, read.record) else None;
      if entry.None? {
        kept := file[..valid];
        break;
      }
      ReplayStep(c, file, valid, entries);
      entries := entries + [entry.value];
      valid := valid + read.size;
    }
  }

  lemma EofIsEnd(c: Codec, b: Bytes)
    requires ReadRecord(c, b) == Eof
    ensures b == []
  {
  }

  // ---------------------------------------------------------------- what a crash leaves

  lemma {:induction false} EncodeAllConcat(c: Codec, a: seq<LogEntry>, b: seq<LogEntry>)
    ensures EncodeAll(c, a + b) == EncodeAll(c, a) + EncodeAll(c, b)
  {
    if a == [] {
      assert a + b == b;
    } else {
      assert (a + b)[1..] == a[1..] + b;
      EncodeAllConcat(c, a[1..], b);
    }
  }

  ghost predicate AllWritable(c: Codec, es: seq<LogEntry>) {
    forall i :: 0 <= i < |es| ==> Writable(c, es[i])
  }

  /** An entry the broker wrote reads back as itself. */
  lemma EntryReadsBack(c: Codec, e: LogEntry, rest: Bytes)
    requires c.Valid() && Writable(c, e)
    ensures ReadRecord(c, EncodeEntry(c, e) + rest) == Got(ToRecord(c, e), |EncodeEntry(c, e)|)
    ensures FromRecord(c, ToRecord(c, e)) == Some(e)
    ensures |EncodeEntry(c, e)| > 0
  {
    ReadWritten(c, ToRecord(c, e), rest);
  }

  /** Replaying whole entries followed by bytes that do not start an entry returns exactly those
      entries and cuts the file right after them. */
  lemma {:induction false} ReplayWhole(c: Codec, before: Bytes, es: seq<LogEntry>, torn: Bytes)
    requires c.Valid() && AllWritable(c, es) && !ReadRecord(c, torn).Got?
    ensures ReplayFrom(c, before + EncodeAll(c, es) + torn, |before|) == Replayed(es, |before| + |EncodeAll(c, es)|)
    decreases |es|
  {
    hide ReadRecord, FromRecord, EncodeEntry;
    var file := before + EncodeAll(c, es) + torn;
    if es == [] {
      assert file[|before|..] == torn;
    } else {
      var e, before' := es[0], before + EncodeEntry(c, es[0]);
      assert file[|before|..] == EncodeEntry(c, e) + (EncodeAll(c, es[1..]) + torn);
      EntryReadsBack(c, e, EncodeAll(c, es[1..]) + torn);
      assert file == before' + EncodeAll(c, es[1..]) + torn;
      ReplayWhole(c, before', es[1..], torn);
      assert [e] + es[1..] == es;
    }
  }

  lemma TornEntry(c: Codec, e: LogEntry, torn: Bytes)
    requires Writable(c, e) && torn <= EncodeEntry(c, e) && |torn| < |EncodeEntry(c, e)|
    ensures !ReadRecord(c, torn).Got?
  {
    TornIsCorrupt(c, ToRecord(c, e), torn);
  }

  /** Where a prefix of a log ends: after `k` whole entries and a proper piece of the next. */
  lemma {:induction false} CutPoint(c: Codec, es: seq<LogEntry>, n: nat) returns (k: nat, torn: Bytes)
    requires n <= |EncodeAll(c, es)|
    ensures k <= |es| && EncodeAll(c, es)[..n] == EncodeAll(c, es[..k]) + torn
    ensures k == |es| ==> torn == []
    ensures k < |es| ==> torn <= EncodeEntry(c, es[k]) && |torn| < |EncodeEntry(c, es[k])|
    decreases |es|
  {
    hide EncodeEntry;
    if es == [] {
      k, torn := 0, [];
    } else {
      var first := EncodeEntry(c, es[0]);
      if n < |first| {
        k, torn := 0, first[..n];
        assert EncodeAll(c, es)[..n] == torn;
      } else {
        var k', t := CutPoint(c, es[1..], n - |first|);
        k, torn := k' + 1, t;
        assert EncodeAll(c, es)[..n] == first + EncodeAll(c, es[1..])[..n - |first|];
        assert es[..k][1..] == es[1..][..k'];
      }
    }
  }

  lemma EncodedLength(c: Codec, es: seq<LogEntry>, k: nat, j: nat)
    requires k < j <= |es|
    ensures |EncodeAll(c, es[..k])| + |EncodeEntry(c, es[k])| <= |EncodeAll(c, es[..j])|
  {
    var tail := es[k + 1..j];
    assert es[..j] == es[..k] + ([es[k]] + tail);
    EncodeAllConcat(c, es[..k], [es[k]] + tail);
    assert ([es[k]] + tail)[1..] == tail;
  }

  /** Crash recovery of the file: whatever prefix of the written bytes survives, as long as it
      covers the first `durable` entries, the scan returns a prefix of the entries written that
      includes them, and cuts the file exactly there. */
  lemma CrashKeepsPrefix(c: Codec, es: seq<LogEntry>, durable: nat, n: nat) returns (k: nat)
    requires c.Valid() && AllWritable(c, es) && durable <= |es|
    requires |EncodeAll(c, es[..durable])| <= n <= |EncodeAll(c, es)|
    ensures durable <= k <= |es|
    ensures ReplayAll(c, EncodeAll(c, es)[..n]) == Replayed(es[..k], |EncodeAll(c, es[..k])|)
  {
    hide ReadRecord, ReplayFrom, EncodeAll, EncodeEntry, Writable;
    var torn: Bytes;
    k, torn := CutPoint(c, es, n);
    if k < |es| {
      assert Writable(c, es[k]);
      TornEntry(c, es[k], torn);
    } else {
      EmptyIsEof(c);
    }
    if k < durable {
      EncodedLength(c, es, k, durable);
    }
    ReplayWhole(c, [], es[..k], torn);
    assert [] + EncodeAll(c, es[..k]) + torn == EncodeAll(c, es)[..n];
  }

  lemma EmptyIsEof(c: Codec)
    ensures ReadRecord(c, []) == Eof
  {
  }
}
