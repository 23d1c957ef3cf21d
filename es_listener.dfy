/** The change-data-capture listener that mirrors committed tag and edge
    writes into the search engine, and its 24-byte apply-offset record. */
module Listener {
  import opened Wrappers
  import opened Adapter

  /** One byte of the file. */
  newtype uint8 = x: int | 0 <= x < 256

  const TWO_63: int := 0x8000_0000_0000_0000
  const TWO_64: int := 0x1_0000_0000_0000_0000

  // ---------------------------------------------------------------------------
  // Byte layout of the offset record (little-endian two's complement int64s)
  // ---------------------------------------------------------------------------

  function Pow256(n: nat): (p: nat)
    ensures p > 0
  {
    if n == 0 then 1 else 256 * Pow256(n - 1)
  }

  /** The `n` low-order bytes of `u`, least significant first. */
  function EncodeLE(u: nat, n: nat): (bs: seq<uint8>)
    ensures |bs| == n
  {
    if n == 0 then [] else [(u % 256) as uint8] + EncodeLE(u / 256, n - 1)
  }

  /** The unsigned number whose little-endian bytes are `bs`. */
  function DecodeLE(bs: seq<uint8>): (u: nat)
    ensures u < Pow256(|bs|)
  {
    if bs == [] then 0 else bs[0] as nat + 256 * DecodeLE(bs[1..])
  }

  lemma {:induction false} DecodeEncodeLE(u: nat, n: nat)
    requires u < Pow256(n)
    ensures DecodeLE(EncodeLE(u, n)) == u
  {
    if n > 0 {
      var bs := EncodeLE(u, n);
      var q, r := u / 256, u % 256;
      assert u == 256 * q + r;
      assert q < Pow256(n - 1);
      assert bs[0] as int == r && bs[1..] == EncodeLE(q, n - 1);
      DecodeEncodeLE(q, n - 1);
      assert DecodeLE(bs) == r + 256 * q;
    }
  }

  lemma {:induction false} EncodeDecodeLE(bs: seq<uint8>)
    ensures EncodeLE(DecodeLE(bs), |bs|) == bs
  {
    if bs != [] {
      var u, b, rest := DecodeLE(bs), bs[0] as int, DecodeLE(bs[1..]);
      assert u == b + 256 * rest;
      assert u % 256 == b && u / 256 == rest;
      EncodeDecodeLE(bs[1..]);
    }
  }

  lemma Pow256Eight()
    ensures Pow256(8) == TWO_64
  {
  }

  /** The eight bytes an `int64_t` occupies in memory. */
  function EncodeInt64(x: int64): (bs: seq<uint8>)
    ensures |bs| == 8
  {
    EncodeLE(if x < 0 then x as int + TWO_64 else x as int, 8)
  }

  /** The `int64_t` that eight bytes read back as. */
  function DecodeInt64(bs: seq<uint8>): int64
    requires |bs| == 8
  {
    Pow256Eight();
    var u := DecodeLE(bs);
    if u >= TWO_63 then (u - TWO_64) as int64 else u as int64
  }

  lemma Int64RoundTrip(x: int64)
    ensures DecodeInt64(EncodeInt64(x)) == x
  {
    Pow256Eight();
    DecodeEncodeLE(if x < 0 then x as int + TWO_64 else x as int, 8);
  }

  lemma Int64BytesRoundTrip(bs: seq<uint8>)
    requires |bs| == 8
    ensures EncodeInt64(DecodeInt64(bs)) == bs
  {
    Pow256Eight();
    EncodeDecodeLE(bs);
  }

  /** The offset record: lastId at byte 0, lastTerm at byte 8, lastApplyLogId
      at byte 16, and each reads back as the value written. */
  function EncodeAppliedId(lastId: int64, lastTerm: int64, lastApplyLogId: int64): (raw: seq<uint8>)
    ensures |raw| == 24
    ensures DecodeInt64(raw[0..8]) == lastId
    ensures DecodeInt64(raw[8..16]) == lastTerm
    ensures DecodeInt64(raw[16..24]) == lastApplyLogId
  {
    Int64RoundTrip(lastId);
    Int64RoundTrip(lastTerm);
    Int64RoundTrip(lastApplyLogId);
    var raw := EncodeInt64(lastId) + EncodeInt64(lastTerm) + EncodeInt64(lastApplyLogId);
    assert raw[0..8] == EncodeInt64(lastId);
    assert raw[8..16] == EncodeInt64(lastTerm);
    assert raw[16..24] == EncodeInt64(lastApplyLogId);
    raw
  }

  /** Every 24-byte record is the encoding of the three values it reads back as. */
  lemma RecordIsCanonical(raw: seq<uint8>)
    requires |raw| == 24
    ensures raw == EncodeAppliedId(DecodeInt64(raw[0..8]), DecodeInt64(raw[8..16]), DecodeInt64(raw[16..24]))
  {
    Int64BytesRoundTrip(raw[0..8]);
    Int64BytesRoundTrip(raw[8..16]);
    Int64BytesRoundTrip(raw[16..24]);
    assert raw == raw[0..8] + raw[8..16] + raw[16..24];
  }

  /** A positioned read of eight bytes at `offset`; a read that returns fewer
      bytes fails the `CHECK_EQ` and stops the process. */
  function PRead64(file: seq<uint8>, offset: nat): Exit<int64>
  {
    if offset + 8 <= |file| then Return(DecodeInt64(file[offset..offset + 8]))
    else Fatal("short read of the apply-offset file")
  }

  /** An encoded `int64_t` reads back wherever it sits in the file. */
  lemma PRead64ReadsEncoded(pre: seq<uint8>, x: int64, post: seq<uint8>)
    ensures PRead64(pre + EncodeInt64(x) + post, |pre|) == Return(x)
  {
    var file := pre + EncodeInt64(x) + post;
    assert file[|pre|..|pre| + 8] == EncodeInt64(x);
    Int64RoundTrip(x);
  }

  // ---------------------------------------------------------------------------
  // Collaborators: key layout, full-text index catalog, row readers
  // ---------------------------------------------------------------------------

  datatype OpType = OpBatchPut | OpBatchRemove | OpBatchRemoveRange

  /** One record of a committed batch. */
  datatype LogRecord = LogRecord(op: OpType, key: string, value: string)

  /** What the key-layout decoder says a key is, with the accessors it offers. */
  datatype KeyKind =
    | TagData(tagId: int, vid: string)
    | EdgeData(edgeType: int, src: string, dst: string, rank: int64)
    | OtherData

  /** A decoded property value; `str` is what reading it as a string yields. */
  datatype Value = Value(isString: bool, str: string)

  /** An index definition names at least one field (`front()` is taken unchecked). */
  type FieldList = s: seq<string> | |s| > 0 witness [""]

  /** A full-text index: its name and the fields it lists. */
  datatype FTIndex = FTIndex(name: string, fields: FieldList)

  /** A row reader: the value of each named field. */
  type RowReader = string -> Value

  /** The listener's view of the schema, for its space and vid length:
      key classification, the full-text index of a tag or edge type, and the
      row reader for a value (None where the C++ code gets a null reader). */
  datatype Schema = Schema(
    classify: string -> KeyKind,
    getFTIndex: int -> Option<FTIndex>,
    tagReader: (int, string) -> Option<RowReader>,
    edgeReader: (int, string) -> Option<RowReader>)

  /** The arguments `pickTagAndEdgeData` hands to the callback, apart from the op. */
  datatype Pick = Pick(index: string, vid: string, src: string, dst: string, rank: int64, text: string)

  // ---------------------------------------------------------------------------
  // pickTagAndEdgeData and the batch it accumulates
  // ---------------------------------------------------------------------------

  /** Classifies one record and extracts the first indexed field, or None when
      the record produces no callback. */
  function PickTagAndEdgeData(schema: Schema, key: string, value: string): (r: Option<Pick>)
    ensures schema.classify(key).OtherData? ==> r == None
    ensures schema.classify(key).TagData? ==>
      var k := schema.classify(key);
      && (r.Some? <==> schema.getFTIndex(k.tagId).Some? && schema.tagReader(k.tagId, value).Some?)
      && (r.Some? ==> var ft := schema.getFTIndex(k.tagId).value;
            r.value == Pick(ft.name, k.vid, "", "", 0, schema.tagReader(k.tagId, value).value(ft.fields[0]).str))
    ensures schema.classify(key).EdgeData? ==>
      var k := schema.classify(key);
      && (r.Some? <==> schema.getFTIndex(k.edgeType).Some? && schema.edgeReader(k.edgeType, value).Some?)
      && (r.Some? ==> var ft := schema.getFTIndex(k.edgeType).value;
            r.value == Pick(ft.name, "", k.src, k.dst, k.rank, schema.edgeReader(k.edgeType, value).value(ft.fields[0]).str))
  {
    match schema.classify(key)
    case TagData(tagId, vid) =>
      (match schema.getFTIndex(tagId)
       case None => None
       case Some(ft) =>
         match schema.tagReader(tagId, value)
         case None => None
         case Some(reader) =>
           // A non-string value is only logged; the record is still emitted.
           var v := reader(ft.fields[0]);
           Some(Pick(ft.name, vid, "", "", 0, v.str)))
    case EdgeData(edgeType, src, dst, rank) =>
      (match schema.getFTIndex(edgeType)
       case None => None
       case Some(ft) =>
         match schema.edgeReader(edgeType, value)
         case None => None
         case Some(reader) =>
           var v := reader(ft.fields[0]);
           Some(Pick(ft.name, "", src, dst, rank, v.str)))
    case OtherData => None
  }

  /** The bulk calls the callback makes for one picked record: a put with the
      text, a delete without it, and none for any other op (which aborts). */
  function EntriesFor(genDocID: DocKey -> string, op: OpType, p: Pick): seq<Entry>
  {
    var k := DocKey(p.vid, p.src, p.dst, p.rank);
    match op
    case OpBatchPut => [Entry(p.index, Upsert(genDocID(k), k, p.text))]
    case OpBatchRemove => [Entry(p.index, Action.Delete(genDocID(k), k))]
    case OpBatchRemoveRange => []
  }

  /** The bulk calls one record of a batch gives rise to. */
  function RecordEntries(schema: Schema, genDocID: DocKey -> string, rec: LogRecord): seq<Entry>
  {
    match PickTagAndEdgeData(schema, rec.key, rec.value)
    case None => []
    case Some(p) => EntriesFor(genDocID, rec.op, p)
  }

  /** A record that reaches the callback with an op other than put or remove. */
  predicate Unexpected(schema: Schema, rec: LogRecord)
  {
    rec.op.OpBatchRemoveRange? && PickTagAndEdgeData(schema, rec.key, rec.value).Some?
  }

  /** The bulk calls a whole batch gives rise to, in batch order. */
  function BatchLog(schema: Schema, genDocID: DocKey -> string, batch: seq<LogRecord>): seq<Entry>
  {
    if batch == [] then []
    else BatchLog(schema, genDocID, batch[..|batch| - 1]) + RecordEntries(schema, genDocID, batch[|batch| - 1])
  }

  /** A batch none of whose records is picked records no bulk call at all. */
  lemma {:induction false} NoPickNoEntries(schema: Schema, genDocID: DocKey -> string, batch: seq<LogRecord>)
    requires forall i :: 0 <= i < |batch| ==> PickTagAndEdgeData(schema, batch[i].key, batch[i].value).None?
    ensures BatchLog(schema, genDocID, batch) == []
    ensures forall i :: 0 <= i < |batch| ==> !Unexpected(schema, batch[i])
  {
    if batch != [] {
      NoPickNoEntries(schema, genDocID, batch[..|batch| - 1]);
    }
  }

  /** Splitting one batch in two: the bulk calls of the whole batch are
      those of its first part followed by those of its second part. */
  lemma {:induction false} BatchLogConcat(schema: Schema, genDocID: DocKey -> string, a: seq<LogRecord>, b: seq<LogRecord>)
    ensures BatchLog(schema, genDocID, a + b) == BatchLog(schema, genDocID, a) + BatchLog(schema, genDocID, b)
  {
    if b != [] {
      var b', last := b[..|b| - 1], b[|b| - 1];
      assert (a + b)[..|a + b| - 1] == a + b';
      assert (a + b)[|a + b| - 1] == last;
      assert BatchLog(schema, genDocID, a + b)
          == BatchLog(schema, genDocID, a + b') + RecordEntries(schema, genDocID, last);
      BatchLogConcat(schema, genDocID, a, b');
    } else {
      assert a + b == a;
    }
  }

  /** A tag value that is not a string is only logged: the record is still
      picked, and its text is what reading the value as a string yields. */
  lemma NonStringValueStillPicked(schema: Schema, key: string, value: string)
    requires schema.classify(key).TagData?
    requires var k := schema.classify(key);
      && schema.getFTIndex(k.tagId).Some? && schema.tagReader(k.tagId, value).Some?
      && !schema.tagReader(k.tagId, value).value(schema.getFTIndex(k.tagId).value.fields[0]).isString
    ensures var k := schema.classify(key);
      var ft := schema.getFTIndex(k.tagId).value;
      PickTagAndEdgeData(schema, key, value)
        == Some(Pick(ft.name, k.vid, "", "", 0, schema.tagReader(k.tagId, value).value(ft.fields[0]).str))
  {
  }

  /** A put and a remove of the same key act on the same document: same
      index, same identity fields, same document id; only the put has text. */
  lemma PutAndRemoveShareDocument(schema: Schema, genDocID: DocKey -> string, key: string, v1: string, v2: string)
    requires PickTagAndEdgeData(schema, key, v1).Some? && PickTagAndEdgeData(schema, key, v2).Some?
    ensures var put := RecordEntries(schema, genDocID, LogRecord(OpBatchPut, key, v1));
      var del := RecordEntries(schema, genDocID, LogRecord(OpBatchRemove, key, v2));
      && |put| == 1 && |del| == 1
      && put[0].action.Upsert? && del[0].action.Delete?
      && put[0].index == del[0].index
      && put[0].action.key == del[0].action.key
      && put[0].action.docId == del[0].action.docId
      && put[0].action.text == PickTagAndEdgeData(schema, key, v1).value.text
  {
  }

  // ---------------------------------------------------------------------------
  // The listener
  // ---------------------------------------------------------------------------

  /** The outcome of rewriting the offset file: `open` failed, or it succeeded
      (truncating the file) and `write` then stored `count` bytes. */
  datatype FileWrite = OpenFailed | Wrote(count: nat)

  class ESListener {
    const schema: Schema
    const genDocID: DocKey -> string
    /** The apply-offset file: None when it does not exist. */
    var offsetFile: Option<seq<uint8>>
    /** The bulk requests submitted so far, in order. */
    ghost var requests: seq<Documents>

    constructor (schema: Schema, genDocID: DocKey -> string, offsetFile: Option<seq<uint8>>)
      ensures this.schema == schema && this.genDocID == genDocID
      ensures this.offsetFile == offsetFile && requests == []
    {
      this.schema := schema;
      this.genDocID := genDocID;
      this.offsetFile := offsetFile;
      requests := [];
    }

    /** The callback `apply` hands to `pickTagAndEdgeData`. */
    static method Callback(bulk: ESBulk, op: OpType, p: Pick) returns (r: Exit<()>)
      requires bulk.Valid()
      modifies bulk
      ensures bulk.Valid()
      ensures r.Fatal? <==> op.OpBatchRemoveRange?
      ensures bulk.log == old(bulk.log) + EntriesFor(bulk.genDocID, op, p)
    {
      if op.OpBatchPut? {
        bulk.Put(p.index, p.vid, p.src, p.dst, p.rank, p.text);
      } else if op.OpBatchRemove? {
        bulk.Delete(p.index, p.vid, p.src, p.dst, p.rank);
      } else {
        return Fatal("Unexpect");
      }
      return Return(());
    }

    /** Applies one committed batch: accumulates a bulk request from its
        indexed records and submits it if it is not empty. `submit` is the
        outcome of the adapter's bulk call for the accumulated documents. */
    method Apply(batch: seq<LogRecord>, submit: Documents -> bool) returns (r: Exit<bool>)
      modifies this
      ensures offsetFile == old(offsetFile)
      ensures r.Fatal? <==> exists i :: 0 <= i < |batch| && Unexpected(schema, batch[i])
      ensures r.Fatal? ==> requests == old(requests)
      ensures !r.Fatal? ==>
        var docs := Group(BatchLog(schema, genDocID, batch));
        if docs == map[] then r == Return(true) && requests == old(requests)
        else r == Return(submit(docs)) && requests == old(requests) + [docs]
    {
      var bulk := new ESBulk(genDocID);
      var i := 0;
      while i < |batch|
        invariant 0 <= i <= |batch|
        invariant bulk.Valid() && bulk.genDocID == genDocID
        invariant bulk.log == BatchLog(schema, genDocID, batch[..i])
        invariant forall j :: 0 <= j < i ==> !Unexpected(schema, batch[j])
        invariant requests == old(requests) && offsetFile == old(offsetFile)
      {
        var rec := batch[i];
        var picked := PickTagAndEdgeData(schema, rec.key, rec.value);
        if picked.Some? {
          var cb := Callback(bulk, rec.op, picked.value);
          if cb.Fatal? {
            return Fatal(cb.message);
          }
        }
        assert batch[..i + 1][..i] == batch[..i];
        i := i + 1;
      }
      assert batch[..i] == batch;
      GroupEmpty(bulk.log);
      if !bulk.Empty() {
        var ok := submit(bulk.documents);
        requests := requests + [bulk.documents];
        if !ok {
          return Return(false);
        }
      }
      return Return(true);
    }

    /** The (lastId, lastTerm) pair recorded in the offset file; (0, 0) when
        the file does not exist. */
    function LastCommittedLogId(): (r: Exit<(int64, int64)>)
      reads this
      ensures offsetFile.None? ==> r == Return((0, 0))
      ensures offsetFile.Some? ==> (r.Return? <==> 16 <= |offsetFile.value|)
      ensures offsetFile.Some? && r.Return? ==>
        offsetFile.value[..16] == EncodeInt64(r.value.0) + EncodeInt64(r.value.1)
    {
      match offsetFile
      case None => Return((0, 0))
      case Some(file) =>
        match PRead64(file, 0)
        case Fatal(m) => Fatal(m)
        case Return(logId) =>
          match PRead64(file, 8)
          case Fatal(m) => Fatal(m)
          case Return(termId) =>
            Int64BytesRoundTrip(file[0..8]);
            Int64BytesRoundTrip(file[8..16]);
            assert file[..16] == file[0..8] + file[8..16];
            Return((logId, termId))
    }

    /** The last applied log id recorded in the offset file; 0 when the file
        does not exist. */
    function LastApplyLogId(): (r: Exit<int64>)
      reads this
      ensures offsetFile.None? ==> r == Return(0)
      ensures offsetFile.Some? ==> (r.Return? <==> 24 <= |offsetFile.value|)
      ensures offsetFile.Some? && r.Return? ==> offsetFile.value[16..24] == EncodeInt64(r.value)
    {
      match offsetFile
      case None => Return(0)
      case Some(file) =>
        match PRead64(file, 16)
        case Fatal(m) => Fatal(m)
        case Return(logId) =>
          Int64BytesRoundTrip(file[16..24]);
          Return(logId)
    }

    /** Rewrites the offset file; true when the whole record was written. */
    method WriteAppliedId(lastId: int64, lastTerm: int64, lastApplyLogId: int64, io: FileWrite)
      returns (ok: bool)
      modifies this`offsetFile
      ensures ok <==> io == Wrote(24)
      ensures io.OpenFailed? ==> offsetFile == old(offsetFile)
      ensures io.Wrote? ==> var raw := EncodeAppliedId(lastId, lastTerm, lastApplyLogId);
        offsetFile == Some(raw[..if io.count < 24 then io.count else 24])
    {
      if io.OpenFailed? {
        return false;
      }
      offsetFile := Some([]);
      var raw := EncodeAppliedId(lastId, lastTerm, lastApplyLogId);
      var stored := if io.count < |raw| then io.count else |raw|;
      assert [] + raw[..stored] == raw[..stored];
      offsetFile := Some(offsetFile.value + raw[..stored]);
      if io.count != |raw| {
        return false;
      }
      return true;
    }

    /** Records the applied position; a failed write stops the process. */
    method Persist(lastId: int64, lastTerm: int64, lastApplyLogId: int64, io: FileWrite)
      returns (r: Exit<bool>)
      modifies this`offsetFile
      ensures r == if io == Wrote(24) then Return(true) else Fatal("last apply ids write failed")
      ensures r.Return? ==> LastCommittedLogId() == Return((lastId, lastTerm))
      ensures r.Return? ==> LastApplyLogId() == Return(lastApplyLogId)
      ensures io.OpenFailed? ==> offsetFile == old(offsetFile)
      ensures io.Wrote? ==> var raw := EncodeAppliedId(lastId, lastTerm, lastApplyLogId);
        offsetFile == Some(raw[..if io.count < 24 then io.count else 24])
    {
      var ok := WriteAppliedId(lastId, lastTerm, lastApplyLogId, io);
      if !ok {
        return Fatal("last apply ids write failed");
      }
      ghost var raw := EncodeAppliedId(lastId, lastTerm, lastApplyLogId);
      assert raw[..24] == raw;
      RecordReadsBack(this, lastId, lastTerm, lastApplyLogId);
      return Return(true);
    }
  }

  /** With no offset file, reading resumes from zero. */
  lemma ColdStartReadsZero(l: ESListener)
    requires l.offsetFile == None
    ensures l.LastCommittedLogId() == Return((0, 0))
    ensures l.LastApplyLogId() == Return(0)
  {
  }

  /** A complete record reads back as the values written. */
  lemma RecordReadsBack(l: ESListener, lastId: int64, lastTerm: int64, lastApplyLogId: int64)
    requires l.offsetFile == Some(EncodeAppliedId(lastId, lastTerm, lastApplyLogId))
    ensures l.LastCommittedLogId() == Return((lastId, lastTerm))
    ensures l.LastApplyLogId() == Return(lastApplyLogId)
  {
  }

  /** A record cut short by a failed write is not read as zero: reading
      lastApplyLogId from it stops the process, and so does reading the
      committed pair when fewer than 16 bytes were written. */
  lemma TornRecordAborts(l: ESListener, lastId: int64, lastTerm: int64, lastApplyLogId: int64, n: nat)
    requires n < 24
    requires l.offsetFile == Some(EncodeAppliedId(lastId, lastTerm, lastApplyLogId)[..n])
    ensures l.LastApplyLogId().Fatal?
    ensures n < 16 <==> l.LastCommittedLogId().Fatal?
  {
  }
}
