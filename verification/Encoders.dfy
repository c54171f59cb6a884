/**
 The loops that write, measure and read record batches: the log's writer, the size it computes
 in advance, the wire protocol's writer with its append-only buffer, and the reader of records.
 */
module Encoders {
  import opened Batches
  import opened RawBatches
  import opened Varints
  import opened Codec

  // ----- Sizes -----

  method NullableSize(b: Option<seq<Byte>>) returns (size: nat)
    ensures size == |Nullable(b)|
  {
    if b.None? {
      size := VarintSize(-1);
    } else {
      size := VarintSize(|b.value|);
      size := size + |b.value|;
    }
  }

  lemma {:induction false} BodySizeIs(m: Message, i: nat, first: int)
    ensures |Body(m, i, first)| == 1 + |Varint(Wrap64(m.timestamp - first))| + |Varint(i)|
                                   + |Nullable(m.key)| + |Nullable(m.value)| + 1
  {
  }

  method RecordSize(m: Message, i: nat, first: int) returns (size: nat)
    ensures size == |Record(m, i, first)|
  {
    BodySizeIs(m, i, first);
    var delta := VarintSize(Wrap64(m.timestamp - first));
    var offset := VarintSize(i);
    var key := NullableSize(m.key);
    var value := NullableSize(m.value);
    var body := 1 + delta + offset + key + value + 1;
    var prefix := VarintSize(body);
    size := prefix + body;
  }

  lemma {:induction false} WrittenStep(write: Writer, ms: seq<Message>, i: nat)
    requires i < |ms|
    ensures WriteFrom(write, ms, i) == write(ms[i], i) + WriteFrom(write, ms, i + 1)
  {
  }

  method RecordsSize(ms: seq<Message>, first: int) returns (size: nat)
    ensures size == |WriteFrom(Writing(first), ms, 0)|
  {
    size := 0;
    var i := 0;
    ghost var write := Writing(first);
    while i < |ms|
      invariant i <= |ms| && size + |WriteFrom(write, ms, i)| == |WriteFrom(write, ms, 0)|
    {
      var n := RecordSize(ms[i], i, first);
      WrittenStep(write, ms, i);
      size := size + n;
      i := i + 1;
    }
  }

  /** The size computed before writing is the size written. */
  method EncodedBatchSize(b: RecordBatch, ghost epoch: int, ghost crc: Checksum) returns (size: nat)
    requires InRange(b) && -TWO_TO_31 <= epoch < TWO_TO_31
    ensures size == |Encode(b, epoch, crc)|
  {
    var n := RecordsSize(b.messages, b.firstTimestamp);
    size := RECORD_BATCH_OVERHEAD + n;
    BodyLayout(Covered(b));
    OuterLayout(Whole(b.firstOffset, epoch, Join(Covered(b)), crc));
  }

  // ----- The log's writer -----

  method AppendNullable(dst: seq<Byte>, b: Option<seq<Byte>>) returns (r: seq<Byte>)
    ensures r == dst + Nullable(b)
  {
    if b.None? {
      r := dst + Varint(-1);
    } else {
      r := dst + Varint(|b.value|);
      r := r + b.value;
      assert r == dst + (Varint(|b.value|) + b.value);
    }
  }

  lemma {:induction false} InOrder(a: seq<Byte>, b: seq<Byte>, k: seq<Byte>, v: seq<Byte>, z: seq<Byte>)
    ensures [0] + a + b + k + v + z == [0] + (a + (b + (k + (v + z))))
  {
  }

  method AppendRecord(dst: seq<Byte>, m: Message, i: nat, first: int) returns (r: seq<Byte>)
    ensures r == dst + Record(m, i, first)
  {
    var body: seq<Byte> := [0];
    body := body + Varint(Wrap64(m.timestamp - first));
    body := body + Varint(i);
    body := AppendNullable(body, m.key);
    body := AppendNullable(body, m.value);
    body := body + Varint(0);
    InOrder(Varint(Wrap64(m.timestamp - first)), Varint(i), Nullable(m.key), Nullable(m.value), Varint(0));
    r := dst + Varint(|body|);
    r := r + body;
    assert r == dst + (Varint(|body|) + body);
  }

  lemma {:induction false} Appended(write: Writer, ms: seq<Message>, i: nat, before: seq<Byte>)
    requires i < |ms|
    ensures (before + write(ms[i], i)) + WriteFrom(write, ms, i + 1) == before + WriteFrom(write, ms, i)
  {
    WrittenStep(write, ms, i);
  }

  method AppendRecords(ms: seq<Message>, first: int) returns (r: seq<Byte>)
    ensures r == WriteFrom(Writing(first), ms, 0)
  {
    r := [];
    var i := 0;
    ghost var write := Writing(first);
    while i < |ms|
      invariant i <= |ms| && r + WriteFrom(write, ms, i) == WriteFrom(write, ms, 0)
    {
      Appended(write, ms, i, r);
      r := AppendRecord(r, ms[i], i, first);
      i := i + 1;
    }
    assert r + [] == r;
  }

  lemma {:induction false} JoinSix(p: seq<seq<Byte>>)
    requires |p| == 6
    ensures Join(p) == p[0] + p[1] + p[2] + p[3] + p[4] + p[5]
  {
    JoinStep(p, 0);
    JoinStep(p, 1);
    JoinStep(p, 2);
    JoinStep(p, 3);
    JoinStep(p, 4);
    JoinStep(p, 5);
    assert p[..6] == p && [] + p[0] == p[0];
  }

  lemma {:induction false} JoinNine(p: seq<seq<Byte>>)
    requires |p| == 9
    ensures Join(p) == p[0] + p[1] + p[2] + p[3] + p[4] + p[5] + p[6] + p[7] + p[8]
  {
    JoinSix(p[..6]);
    JoinStep(p, 6);
    JoinStep(p, 7);
    JoinStep(p, 8);
    assert p[..9] == p;
  }

  method EncodeBatch(b: RecordBatch, epoch: int, crc: Checksum) returns (r: seq<Byte>)
    requires InRange(b) && -TWO_TO_31 <= epoch < TWO_TO_31
    ensures r == Encode(b, epoch, crc)
  {
    var records := AppendRecords(b.messages, b.firstTimestamp);
    var body := Digits(b.attributes, 2);
    body := body + Digits(b.lastOffsetDelta, 4);
    body := body + Digits(Unsigned64(b.firstTimestamp), 8);
    body := body + Digits(Unsigned64(b.maxTimestamp), 8);
    body := body + Digits(2 * TWO_TO_63 - 1, 8);
    body := body + Digits(0xFFFF, 2);
    body := body + Digits(TWO_TO_32 - 1, 4);
    body := body + Digits(|b.messages|, 4);
    body := body + records;
    JoinNine(Covered(b));
    r := Digits(b.firstOffset, 8);
    r := r + Digits(9 + |body|, 4);
    r := r + Digits(Unsigned32(epoch), 4);
    r := r + [2];
    r := r + Digits(crc(body), 4);
    r := r + body;
    JoinSix(Whole(b.firstOffset, epoch, body, crc));
  }

  // ----- The wire protocol's writer -----

  /** Bytes are only ever appended; integers are written as the low bytes of their two's complement. */
  class Encoder {
    var bytes: seq<Byte>

    constructor ()
      ensures bytes == []
    {
      bytes := [];
    }

    method PutInt8(v: int)
      modifies this
      ensures bytes == old(bytes) + [v % 0x100]
    {
      bytes := bytes + [v % 0x100];
    }

    method PutInt16(v: int)
      modifies this
      ensures bytes == old(bytes) + Digits(v % 0x1_0000, 2)
    {
      bytes := bytes + Digits(v % 0x1_0000, 2);
    }

    method PutInt32(v: int)
      modifies this
      ensures bytes == old(bytes) + Digits(v % TWO_TO_32, 4)
    {
      bytes := bytes + Digits(v % TWO_TO_32, 4);
    }

    method PutInt64(v: int)
      modifies this
      ensures bytes == old(bytes) + Digits(v % (2 * TWO_TO_63), 8)
    {
      bytes := bytes + Digits(v % (2 * TWO_TO_63), 8);
    }

    method PutVarint(v: int)
      modifies this
      ensures bytes == old(bytes) + Varint(v)
    {
      bytes := bytes + Varint(v);
    }

    method PutRawBytes(b: seq<Byte>)
      modifies this
      ensures bytes == old(bytes) + b
    {
      bytes := bytes + b;
    }

    /** A length and the bytes, or -1 for none. */
    method PutSized(b: Option<seq<Byte>>)
      modifies this
      ensures bytes == old(bytes) + Nullable(b)
    {
      if b.None? {
        PutVarint(-1);
      } else {
        PutVarint(|b.value|);
        PutRawBytes(b.value);
        assert bytes == old(bytes) + (Varint(|b.value|) + b.value);
      }
    }
  }

  method EncodeRecord(m: Message, i: nat, first: int) returns (r: seq<Byte>)
    ensures r == Record(m, i, first)
  {
    var body := new Encoder();
    body.PutInt8(0);
    body.PutVarint(Wrap64(m.timestamp - first));
    body.PutVarint(i);
    body.PutSized(m.key);
    body.PutSized(m.value);
    body.PutVarint(0);
    assert [] + [0] == [0];
    InOrder(Varint(Wrap64(m.timestamp - first)), Varint(i), Nullable(m.key), Nullable(m.value), Varint(0));
    var rec := new Encoder();
    rec.PutVarint(|body.bytes|);
    rec.PutRawBytes(body.bytes);
    r := rec.bytes;
    assert [] + Varint(|body.bytes|) == Varint(|body.bytes|);
  }

  method EncodeRecords(ms: seq<Message>, first: int) returns (r: seq<Byte>)
    ensures r == WriteFrom(Writing(first), ms, 0)
  {
    var records := new Encoder();
    var i := 0;
    ghost var write := Writing(first);
    assert [] + WriteFrom(write, ms, 0) == WriteFrom(write, ms, 0);
    while i < |ms|
      invariant i <= |ms| && fresh(records) && records.bytes + WriteFrom(write, ms, i) == WriteFrom(write, ms, 0)
    {
      Appended(write, ms, i, records.bytes);
      var rec := EncodeRecord(ms[i], i, first);
      records.PutRawBytes(rec);
      i := i + 1;
    }
    r := records.bytes;
    assert r + [] == r;
  }

  lemma {:induction false} TwosComplement(b: RecordBatch)
    requires InRange(b)
    ensures b.attributes % 0x1_0000 == b.attributes && b.lastOffsetDelta % TWO_TO_32 == b.lastOffsetDelta
    ensures b.firstTimestamp % (2 * TWO_TO_63) == Unsigned64(b.firstTimestamp)
    ensures b.maxTimestamp % (2 * TWO_TO_63) == Unsigned64(b.maxTimestamp)
    ensures |b.messages| % TWO_TO_32 == |b.messages|
    ensures -1 % (2 * TWO_TO_63) == 2 * TWO_TO_63 - 1 && -1 % TWO_TO_32 == TWO_TO_32 - 1 && -1 % 0x1_0000 == 0xFFFF
  {
  }

  method EncodeBody(b: RecordBatch) returns (r: seq<Byte>)
    requires InRange(b)
    ensures r == Join(Covered(b))
  {
    TwosComplement(b);
    var records := EncodeRecords(b.messages, b.firstTimestamp);
    var body := new Encoder();
    body.PutInt16(b.attributes);
    assert [] + Digits(b.attributes, 2) == Digits(b.attributes, 2);
    body.PutInt32(b.lastOffsetDelta);
    body.PutInt64(b.firstTimestamp);
    body.PutInt64(b.maxTimestamp);
    body.PutInt64(-1);
    body.PutInt16(-1);
    body.PutInt32(-1);
    body.PutInt32(|b.messages|);
    body.PutRawBytes(records);
    r := body.bytes;
    JoinNine(Covered(b));
  }

  lemma {:induction false} Residues(firstOffset: nat, epoch: int, n: nat, c: nat)
    requires firstOffset < 2 * TWO_TO_63 && -TWO_TO_31 <= epoch < TWO_TO_31 && n < TWO_TO_32 && c < TWO_TO_32
    ensures firstOffset % (2 * TWO_TO_63) == firstOffset && epoch % TWO_TO_32 == Unsigned32(epoch)
    ensures n % TWO_TO_32 == n && c % TWO_TO_32 == c
  {
  }

  method EncodeWhole(firstOffset: nat, epoch: int, body: seq<Byte>, crc: Checksum) returns (r: seq<Byte>)
    requires firstOffset < 2 * TWO_TO_63 && -TWO_TO_31 <= epoch < TWO_TO_31
    requires 9 + |body| < TWO_TO_32 && crc(body) < TWO_TO_32
    ensures r == Join(Whole(firstOffset, epoch, body, crc))
  {
    Residues(firstOffset, epoch, 9 + |body|, crc(body));
    var out := new Encoder();
    out.PutInt64(firstOffset);
    assert [] + Digits(firstOffset, 8) == Digits(firstOffset, 8);
    out.PutInt32(9 + |body|);
    out.PutInt32(epoch);
    out.PutInt8(2);
    out.PutInt32(crc(body));
    out.PutRawBytes(body);
    r := out.bytes;
    JoinSix(Whole(firstOffset, epoch, body, crc));
  }

  /** The wire writer and the log's writer agree byte for byte. */
  method EncodeRecordBatch(b: RecordBatch, epoch: int, crc: Checksum) returns (r: seq<Byte>)
    requires InRange(b) && -TWO_TO_31 <= epoch < TWO_TO_31 && Fits(b, crc)
    ensures r == Encode(b, epoch, crc)
  {
    var body := EncodeBody(b);
    r := EncodeWhole(b.firstOffset, epoch, body, crc);
  }

  // ----- The reader's loop -----

  lemma {:induction false} ReadOne(read: Reader, d: seq<Byte>, n: nat, ms: seq<Message>)
    requires n > 0
    ensures read(d).None? ==> ReadMany(read, d, n).None?
    ensures read(d).Some? ==>
      var rest := ReadMany(read, read(d).value.rest, n - 1);
      After(ms, ReadMany(read, d, n)) == After(ms + [read(d).value.value], rest)
  {
    if read(d).Some? && ReadMany(read, read(d).value.rest, n - 1).Some? {
      var m, more := read(d).value.value, ReadMany(read, read(d).value.rest, n - 1).value;
      assert ms + ([m] + more) == (ms + [m]) + more;
    }
  }

  function After(ms: seq<Message>, more: Option<seq<Message>>): Option<seq<Message>> {
    if more.None? then None else Some(ms + more.value)
  }

  method ReadRecords(read: Reader, d: seq<Byte>, n: nat) returns (r: Option<seq<Message>>)
    ensures r == ReadMany(read, d, n)
  {
    var ms, rest, left := [], d, n;
    assert ReadMany(read, d, n).Some? ==> [] + ReadMany(read, d, n).value == ReadMany(read, d, n).value;
    while left > 0
      invariant After(ms, ReadMany(read, rest, left)) == ReadMany(read, d, n)
    {
      ReadOne(read, rest, left, ms);
      var next := read(rest);
      if next.None? {
        return None;
      }
      ms, rest, left := ms + [next.value.value], next.value.rest, left - 1;
    }
    assert ms + [] == ms;
    r := Some(ms);
  }
}
