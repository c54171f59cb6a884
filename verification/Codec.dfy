/**
 Record batches with their records: the writers of the log and of the wire protocol, the size
 computed in advance, and the reader.
 */
module Codec {
  import opened Batches
  import opened RawBatches
  import opened Varints

  /** A key or value may be null, which differs from empty. */
  datatype Message = Message(key: Option<seq<Byte>>, value: Option<seq<Byte>>, timestamp: int)

  datatype RecordBatch = RecordBatch(
    firstOffset: nat, attributes: nat, firstTimestamp: int, maxTimestamp: int, lastOffsetDelta: nat,
    messages: seq<Message>)

  /** 64-bit wrap-around: a sum or difference of two int64 wraps at most once. */
  function Wrap64(x: int): int {
    if x < -TWO_TO_63 then x + 2 * TWO_TO_63 else if x >= TWO_TO_63 then x - 2 * TWO_TO_63 else x
  }

  function Unsigned64(x: int): nat
    requires -TWO_TO_63 <= x < TWO_TO_63
  {
    if x >= 0 then x else x + 2 * TWO_TO_63
  }

  function Signed64(x: nat): int { if x < TWO_TO_63 then x else x - 2 * TWO_TO_63 }

  /** What the integer types hold; the record count is written in 32 bits. */
  predicate InRange(b: RecordBatch) {
    && b.firstOffset < 2 * TWO_TO_63 && b.attributes < 0x1_0000 && b.lastOffsetDelta < TWO_TO_32
    && -TWO_TO_63 <= b.firstTimestamp < TWO_TO_63 && -TWO_TO_63 <= b.maxTimestamp < TWO_TO_63
    && |b.messages| < TWO_TO_32
    && forall i :: 0 <= i < |b.messages| ==> MessageInRange(b.messages[i])
  }

  predicate MessageInRange(m: Message) {
    -TWO_TO_63 <= m.timestamp < TWO_TO_63
  }

  // ----- Records -----

  function Nullable(b: Option<seq<Byte>>): seq<Byte> {
    if b.None? then Varint(-1) else Varint(|b.value|) + b.value
  }

  function Fields(delta: int, i: nat, key: Option<seq<Byte>>, value: Option<seq<Byte>>): seq<Byte> {
    Varint(delta) + (Varint(i) + (Nullable(key) + (Nullable(value) + Varint(0))))
  }

  /** One byte of attributes, then the fields. */
  function Body(m: Message, i: nat, firstTimestamp: int): seq<Byte> {
    [0] + Fields(Wrap64(m.timestamp - firstTimestamp), i, m.key, m.value)
  }

  function Record(m: Message, i: nat, firstTimestamp: int): seq<Byte> {
    Varint(|Body(m, i, firstTimestamp)|) + Body(m, i, firstTimestamp)
  }

  function ReadNullable(d: seq<Byte>): Option<Parsed<Option<seq<Byte>>>> {
    var n := ReadVarint(d);
    if n.None? then None
    else if n.value.value < 0 then Some(Parsed(None, n.value.rest))
    else if n.value.value > |n.value.rest| then None
    else Some(Parsed(Some(n.value.rest[..n.value.value]), n.value.rest[n.value.value..]))
  }

  /** Skips record headers; their keys and values are not kept. */
  function SkipHeaders(d: seq<Byte>, n: int): Option<seq<Byte>>
    decreases if n < 0 then 0 else n
  {
    if n <= 0 then Some(d)
    else
      var k := SkipSized(d);
      if k.None? then None
      else
        var v := SkipSized(k.value);
        if v.None? then None else SkipHeaders(v.value, n - 1)
  }

  function SkipSized(d: seq<Byte>): Option<seq<Byte>> {
    var n := ReadVarint(d);
    if n.None? then None
    else if n.value.value <= 0 then Some(n.value.rest)
    else if n.value.value > |n.value.rest| then None
    else Some(n.value.rest[n.value.value..])
  }

  /** Key, value and headers. */
  function ReadPayload(d: seq<Byte>, timestamp: int): Option<Parsed<Message>> {
    var key := ReadNullable(d);
    if key.None? then None
    else
      var value := ReadNullable(key.value.rest);
      if value.None? then None
      else
        var headers := ReadVarint(value.value.rest);
        if headers.None? then None
        else
          var rest := SkipHeaders(headers.value.rest, headers.value.value);
          if rest.None? then None
          else Some(Parsed(Message(key.value.value, value.value.value, timestamp), rest.value))
  }

  /** The timestamp, from its difference to the first one; the offset difference is not kept. */
  function ReadTimestamp(d: seq<Byte>, firstTimestamp: int): Option<Parsed<int>> {
    var delta := ReadVarint(d);
    if delta.None? then None
    else
      var offset := ReadVarint(delta.value.rest);
      if offset.None? then None else Some(Parsed(Wrap64(firstTimestamp + delta.value.value), offset.value.rest))
  }

  function ReadBody(d: seq<Byte>, firstTimestamp: int): Option<Parsed<Message>> {
    var t := ReadTimestamp(d, firstTimestamp);
    if t.None? then None else ReadPayload(t.value.rest, t.value.value)
  }

  /** Length, one byte of attributes, and the body. */
  function ReadRecord(d: seq<Byte>, firstTimestamp: int): Option<Parsed<Message>> {
    var len := ReadVarint(d);
    if len.None? || len.value.value > |len.value.rest| || |len.value.rest| == 0 then None
    else ReadBody(len.value.rest[1..], firstTimestamp)
  }

  lemma {:induction false} NullableRoundTrip(b: Option<seq<Byte>>, rest: seq<Byte>)
    requires b.Some? ==> |b.value| < TWO_TO_63
    ensures ReadNullable(Nullable(b) + rest) == Some(Parsed(b, rest))
  {
    if b.None? {
      VarintRoundTrip(-1, rest);
    } else {
      VarintRoundTrip(|b.value|, b.value + rest);
      assert Nullable(b) + rest == Varint(|b.value|) + (b.value + rest);
      assert (b.value + rest)[..|b.value|] == b.value && (b.value + rest)[|b.value|..] == rest;
    }
  }

  /** Adding the timestamp difference back gives the timestamp, wrap-around included. */
  lemma {:induction false} TimestampRoundTrip(t: int, first: int)
    requires -TWO_TO_63 <= t < TWO_TO_63 && -TWO_TO_63 <= first < TWO_TO_63
    ensures Wrap64(first + Wrap64(t - first)) == t
    ensures Int64(Wrap64(t - first))
  {
  }

  lemma {:induction false} PayloadRoundTrip(m: Message, rest: seq<Byte>)
    requires m.key.Some? ==> |m.key.value| < TWO_TO_63
    requires m.value.Some? ==> |m.value.value| < TWO_TO_63
    ensures ReadPayload(Nullable(m.key) + (Nullable(m.value) + (Varint(0) + rest)), m.timestamp)
            == Some(Parsed(m, rest))
  {
    NullableRoundTrip(m.key, Nullable(m.value) + (Varint(0) + rest));
    NullableRoundTrip(m.value, Varint(0) + rest);
    VarintRoundTrip(0, rest);
  }

  lemma {:induction false} TimestampFrom(delta: int, i: nat, first: int, p: seq<Byte>)
    requires Int64(delta) && i < TWO_TO_63
    ensures ReadTimestamp(Varint(delta) + (Varint(i) + p), first) == Some(Parsed(Wrap64(first + delta), p))
  {
    VarintRoundTrip(delta, Varint(i) + p);
    VarintRoundTrip(i, p);
  }

  lemma {:induction false} BodyFrom(d: seq<Byte>, p: seq<Byte>, first: int, t: int, out: Option<Parsed<Message>>)
    requires ReadTimestamp(d, first) == Some(Parsed(t, p)) && ReadPayload(p, t) == out
    ensures ReadBody(d, first) == out
  {
  }

  lemma {:induction false} Regroup(a: seq<Byte>, b: seq<Byte>, k: seq<Byte>, v: seq<Byte>, z: seq<Byte>,
                                   rest: seq<Byte>)
    ensures (a + (b + (k + (v + z)))) + rest == a + (b + (k + (v + (z + rest))))
    ensures |k| <= |a + (b + (k + (v + z)))| && |v| <= |a + (b + (k + (v + z)))|
  {
  }

  lemma {:induction false} FieldsRegroup(delta: int, i: nat, key: Option<seq<Byte>>, value: Option<seq<Byte>>,
                                         rest: seq<Byte>)
    ensures Fields(delta, i, key, value) + rest
         == Varint(delta) + (Varint(i) + (Nullable(key) + (Nullable(value) + (Varint(0) + rest))))
    ensures key.Some? ==> |key.value| <= |Fields(delta, i, key, value)|
    ensures value.Some? ==> |value.value| <= |Fields(delta, i, key, value)|
  {
    Regroup(Varint(delta), Varint(i), Nullable(key), Nullable(value), Varint(0), rest);
  }

  lemma {:induction false} FieldsRoundTrip(delta: int, i: nat, first: int, m: Message, rest: seq<Byte>)
    requires Int64(delta) && i < TWO_TO_63 && |Fields(delta, i, m.key, m.value)| < TWO_TO_63
    requires Wrap64(first + delta) == m.timestamp
    ensures ReadBody(Fields(delta, i, m.key, m.value) + rest, first) == Some(Parsed(m, rest))
  {
    FieldsRegroup(delta, i, m.key, m.value, rest);
    var p := Nullable(m.key) + (Nullable(m.value) + (Varint(0) + rest));
    TimestampFrom(delta, i, first, p);
    PayloadRoundTrip(m, rest);
    BodyFrom(Fields(delta, i, m.key, m.value) + rest, p, first, m.timestamp, Some(Parsed(m, rest)));
  }

  /** Reading the length and the attributes in front of the fields. */
  lemma {:induction false} RecordFrom(d: seq<Byte>, n: int, t: seq<Byte>, first: int, out: Option<Parsed<Message>>)
    requires ReadVarint(d) == Some(Parsed(n, t)) && n <= |t| && |t| > 0 && ReadBody(t[1..], first) == out
    ensures ReadRecord(d, first) == out
  {
  }

  lemma {:induction false} Ahead(a: seq<Byte>, fields: seq<Byte>, rest: seq<Byte>)
    ensures (a + ([0] + fields)) + rest == a + ([0] + (fields + rest))
    ensures ([0] + (fields + rest))[1..] == fields + rest
  {
  }

  lemma {:induction false} SizedRoundTrip(fields: seq<Byte>, first: int, rest: seq<Byte>, out: Option<Parsed<Message>>)
    requires |fields| + 1 < TWO_TO_63 && ReadBody(fields + rest, first) == out
    ensures ReadRecord((Varint(|fields| + 1) + ([0] + fields)) + rest, first) == out
  {
    var t := [0] + (fields + rest);
    VarintRoundTrip(|fields| + 1, t);
    Ahead(Varint(|fields| + 1), fields, rest);
    RecordFrom(Varint(|fields| + 1) + t, |fields| + 1, t, first, out);
  }

  lemma {:induction false} ByDelta(delta: int, i: nat, first: int, m: Message, fields: seq<Byte>, rest: seq<Byte>)
    requires Int64(delta) && i < TWO_TO_63 && Wrap64(first + delta) == m.timestamp
    requires fields == Fields(delta, i, m.key, m.value) && |fields| + 1 < TWO_TO_63
    ensures ReadRecord((Varint(|fields| + 1) + ([0] + fields)) + rest, first) == Some(Parsed(m, rest))
  {
    FieldsRoundTrip(delta, i, first, m, rest);
    SizedRoundTrip(fields, first, rest, Some(Parsed(m, rest)));
  }

  lemma {:induction false} RecordIs(m: Message, i: nat, first: int, fields: seq<Byte>)
    requires fields == Fields(Wrap64(m.timestamp - first), i, m.key, m.value)
    ensures Record(m, i, first) == Varint(|fields| + 1) + ([0] + fields) && |Body(m, i, first)| == |fields| + 1
  {
  }

  /** A record is read back, whatever follows it. */
  lemma {:induction false} RecordRoundTrip(m: Message, i: nat, first: int, rest: seq<Byte>)
    requires MessageInRange(m) && -TWO_TO_63 <= first < TWO_TO_63 && i < TWO_TO_63 && |Body(m, i, first)| < TWO_TO_63
    ensures ReadRecord(Record(m, i, first) + rest, first) == Some(Parsed(m, rest))
  {
    var delta := Wrap64(m.timestamp - first);
    var fields := Fields(delta, i, m.key, m.value);
    TimestampRoundTrip(m.timestamp, first);
    RecordIs(m, i, first, fields);
    ByDelta(delta, i, first, m, fields, rest);
  }

  // ----- Every field of a record -----

  datatype Layout = Layout(length: int, attributes: Byte, delta: int, offset: int, key: Option<seq<Byte>>,
                           value: Option<seq<Byte>>, headers: int)

  /** Timestamp and offset differences. */
  function ReadDeltas(d: seq<Byte>): Option<Parsed<(int, int)>> {
    var delta := ReadVarint(d);
    if delta.None? then None
    else
      var offset := ReadVarint(delta.value.rest);
      if offset.None? then None else Some(Parsed((delta.value.value, offset.value.value), offset.value.rest))
  }

  /** Key, value and number of headers. */
  function ReadContent(d: seq<Byte>): Option<Parsed<(Option<seq<Byte>>, Option<seq<Byte>>, int)>> {
    var key := ReadNullable(d);
    if key.None? then None
    else
      var value := ReadNullable(key.value.rest);
      if value.None? then None
      else
        var headers := ReadVarint(value.value.rest);
        if headers.None? then None
        else Some(Parsed((key.value.value, value.value.value, headers.value.value), headers.value.rest))
  }

  /** All fields of a record without headers, as the format defines them. */
  function ReadLayout(d: seq<Byte>): Option<Parsed<Layout>> {
    var len := ReadVarint(d);
    if len.None? || |len.value.rest| == 0 then None
    else
      var t := ReadDeltas(len.value.rest[1..]);
      if t.None? then None
      else
        var c := ReadContent(t.value.rest);
        if c.None? then None
        else
          var (delta, offset), (key, value, headers) := t.value.value, c.value.value;
          Some(Parsed(Layout(len.value.value, len.value.rest[0], delta, offset, key, value, headers), c.value.rest))
  }

  lemma {:induction false} DeltasFrom(delta: int, i: nat, p: seq<Byte>)
    requires Int64(delta) && i < TWO_TO_63
    ensures ReadDeltas(Varint(delta) + (Varint(i) + p)) == Some(Parsed((delta, i as int), p))
  {
    VarintRoundTrip(delta, Varint(i) + p);
    VarintRoundTrip(i, p);
  }

  lemma {:induction false} ContentFrom(key: Option<seq<Byte>>, value: Option<seq<Byte>>, rest: seq<Byte>)
    requires (key.Some? ==> |key.value| < TWO_TO_63) && (value.Some? ==> |value.value| < TWO_TO_63)
    ensures ReadContent(Nullable(key) + (Nullable(value) + (Varint(0) + rest))) == Some(Parsed((key, value, 0), rest))
  {
    NullableRoundTrip(key, Nullable(value) + (Varint(0) + rest));
    NullableRoundTrip(value, Varint(0) + rest);
    VarintRoundTrip(0, rest);
  }

  lemma {:induction false} LayoutFrom(d: seq<Byte>, n: int, t: seq<Byte>, delta: int, i: int, p: seq<Byte>,
                                      key: Option<seq<Byte>>, value: Option<seq<Byte>>, rest: seq<Byte>)
    requires ReadVarint(d) == Some(Parsed(n, t)) && |t| > 0 && ReadDeltas(t[1..]) == Some(Parsed((delta, i), p))
    requires ReadContent(p) == Some(Parsed((key, value, 0), rest))
    ensures ReadLayout(d) == Some(Parsed(Layout(n, t[0], delta, i, key, value, 0), rest))
  {
  }

  lemma {:induction false} FieldsLayout(delta: int, i: nat, m: Message, rest: seq<Byte>) returns (p: seq<Byte>)
    requires Int64(delta) && i < TWO_TO_63 && |Fields(delta, i, m.key, m.value)| < TWO_TO_63
    ensures ReadDeltas(Fields(delta, i, m.key, m.value) + rest) == Some(Parsed((delta, i as int), p))
    ensures ReadContent(p) == Some(Parsed((m.key, m.value, 0), rest))
  {
    FieldsRegroup(delta, i, m.key, m.value, rest);
    p := Nullable(m.key) + (Nullable(m.value) + (Varint(0) + rest));
    DeltasFrom(delta, i, p);
    ContentFrom(m.key, m.value, rest);
  }

  lemma {:induction false} SizedLayout(fields: seq<Byte>, rest: seq<Byte>, delta: int, i: int, p: seq<Byte>, m: Message)
    requires |fields| + 1 < TWO_TO_63 && ReadDeltas(fields + rest) == Some(Parsed((delta, i), p))
    requires ReadContent(p) == Some(Parsed((m.key, m.value, 0), rest))
    ensures ReadLayout((Varint(|fields| + 1) + ([0] + fields)) + rest)
         == Some(Parsed(Layout(|fields| + 1, 0, delta, i, m.key, m.value, 0), rest))
  {
    var t := [0] + (fields + rest);
    VarintRoundTrip(|fields| + 1, t);
    Ahead(Varint(|fields| + 1), fields, rest);
    LayoutFrom(Varint(|fields| + 1) + t, |fields| + 1, t, delta, i, p, m.key, m.value, rest);
  }

  lemma {:induction false} LayoutByDelta(delta: int, i: nat, m: Message, n: nat, fields: seq<Byte>, d: seq<Byte>,
                                         rest: seq<Byte>)
    requires Int64(delta) && i < TWO_TO_63
    requires fields == Fields(delta, i, m.key, m.value) && n == |fields| + 1 < TWO_TO_63
    requires d == (Varint(n) + ([0] + fields)) + rest
    ensures ReadLayout(d) == Some(Parsed(Layout(n, 0, delta, i, m.key, m.value, 0), rest))
  {
    var p := FieldsLayout(delta, i, m, rest);
    SizedLayout(fields, rest, delta, i, p, m);
  }

  /** A written record has its true length, no attributes, its number, and no headers. */
  lemma {:induction false} RecordLayout(m: Message, i: nat, first: int, d: seq<Byte>, rest: seq<Byte>)
    requires MessageInRange(m) && -TWO_TO_63 <= first < TWO_TO_63 && i < TWO_TO_63 && |Body(m, i, first)| < TWO_TO_63
    requires d == Record(m, i, first) + rest
    ensures var delta := Wrap64(m.timestamp - first);
            ReadLayout(d) == Some(Parsed(Layout(|Body(m, i, first)|, 0, delta, i, m.key, m.value, 0), rest))
  {
    var delta := Wrap64(m.timestamp - first);
    var fields := Fields(delta, i, m.key, m.value);
    TimestampRoundTrip(m.timestamp, first);
    RecordIs(m, i, first, fields);
    LayoutByDelta(delta, i, m, |Body(m, i, first)|, fields, d, rest);
  }

  // ----- Records with headers -----

  datatype Header = Header(key: seq<Byte>, value: Option<seq<Byte>>)

  function HeaderBytes(hs: seq<Header>): seq<Byte> {
    if |hs| == 0 then [] else Nullable(Some(hs[0].key)) + (Nullable(hs[0].value) + HeaderBytes(hs[1..]))
  }

  predicate HeaderInRange(h: Header) { |h.key| < TWO_TO_63 && (h.value.Some? ==> |h.value.value| < TWO_TO_63) }

  lemma {:induction false} SizedIsSkipped(b: Option<seq<Byte>>, rest: seq<Byte>)
    requires b.Some? ==> |b.value| < TWO_TO_63
    ensures SkipSized(Nullable(b) + rest) == Some(rest)
  {
    if b.None? {
      VarintRoundTrip(-1, rest);
    } else {
      VarintRoundTrip(|b.value|, b.value + rest);
      assert Nullable(b) + rest == Varint(|b.value|) + (b.value + rest);
      assert (b.value + rest)[|b.value|..] == rest;
    }
  }

  lemma {:induction false} HeadersAreSkipped(hs: seq<Header>, rest: seq<Byte>)
    requires forall i :: 0 <= i < |hs| ==> HeaderInRange(hs[i])
    ensures SkipHeaders(HeaderBytes(hs) + rest, |hs|) == Some(rest)
  {
    if |hs| == 0 {
      assert HeaderBytes(hs) + rest == rest;
    } else {
      var k, v, more := Nullable(Some(hs[0].key)), Nullable(hs[0].value), HeaderBytes(hs[1..]);
      assert (k + (v + more)) + rest == k + (v + (more + rest));
      assert HeaderInRange(hs[0]);
      SizedIsSkipped(Some(hs[0].key), v + (more + rest));
      SizedIsSkipped(hs[0].value, more + rest);
      HeadersAreSkipped(hs[1..], rest);
    }
  }

  /** Key and value are read, and the bytes behind the headers are found, however many headers there are. */
  lemma {:induction false} PayloadWithHeaders(m: Message, hs: seq<Header>, rest: seq<Byte>)
    requires (m.key.Some? ==> |m.key.value| < TWO_TO_63) && (m.value.Some? ==> |m.value.value| < TWO_TO_63)
    requires |hs| < TWO_TO_63 && forall i :: 0 <= i < |hs| ==> HeaderInRange(hs[i])
    ensures ReadPayload(Nullable(m.key) + (Nullable(m.value) + (Varint(|hs|) + (HeaderBytes(hs) + rest))), m.timestamp)
         == Some(Parsed(m, rest))
  {
    var h := Varint(|hs|) + (HeaderBytes(hs) + rest);
    NullableRoundTrip(m.key, Nullable(m.value) + h);
    NullableRoundTrip(m.value, h);
    VarintRoundTrip(|hs|, HeaderBytes(hs) + rest);
    HeadersAreSkipped(hs, rest);
  }

  // ----- Runs of records -----

  type Writer = (Message, nat) -> seq<Byte>

  type Reader = seq<Byte> -> Option<Parsed<Message>>

  function Writing(firstTimestamp: int): Writer { (m, i) => Record(m, i, firstTimestamp) }

  function Reading(firstTimestamp: int): Reader { d => ReadRecord(d, firstTimestamp) }

  /** The messages from `k` on. */
  function WriteFrom(write: Writer, ms: seq<Message>, k: nat): seq<Byte>
    requires k <= |ms|
    decreases |ms| - k
  {
    if k == |ms| then [] else write(ms[k], k) + WriteFrom(write, ms, k + 1)
  }

  function ReadMany(read: Reader, d: seq<Byte>, n: nat): Option<seq<Message>>
    decreases n
  {
    if n == 0 then Some([])
    else
      var r := read(d);
      if r.None? then None
      else
        var more := ReadMany(read, r.value.rest, n - 1);
        if more.None? then None else Some([r.value.value] + more.value)
  }

  ghost predicate ReadsBack(read: Reader, write: Writer, m: Message, i: nat) {
    forall rest :: read(write(m, i) + rest) == Some(Parsed(m, rest))
  }

  lemma {:induction false} ManyRoundTrip(read: Reader, write: Writer, ms: seq<Message>, k: nat)
    requires k <= |ms| && forall i :: k <= i < |ms| ==> ReadsBack(read, write, ms[i], i)
    ensures ReadMany(read, WriteFrom(write, ms, k), |ms| - k) == Some(ms[k..])
    decreases |ms| - k
  {
    if k < |ms| {
      ManyRoundTrip(read, write, ms, k + 1);
      assert ReadsBack(read, write, ms[k], k);
      assert [ms[k]] + ms[k + 1..] == ms[k..];
    }
  }

  lemma {:induction false} ItemWithin(write: Writer, ms: seq<Message>, k: nat, i: nat)
    requires k <= i < |ms|
    ensures |write(ms[i], i)| <= |WriteFrom(write, ms, k)|
    decreases i - k
  {
    if k < i {
      ItemWithin(write, ms, k + 1, i);
    }
  }

  lemma {:induction false} RecordReadsBack(m: Message, i: nat, first: int)
    requires MessageInRange(m) && -TWO_TO_63 <= first < TWO_TO_63 && i < TWO_TO_63
    requires |Writing(first)(m, i)| < TWO_TO_63
    ensures ReadsBack(Reading(first), Writing(first), m, i)
  {
    forall rest ensures Reading(first)(Writing(first)(m, i) + rest) == Some(Parsed(m, rest)) {
      RecordRoundTrip(m, i, first, rest);
    }
  }

  lemma {:induction false} RecordsRoundTrip(ms: seq<Message>, first: int)
    requires |ms| < TWO_TO_63 && -TWO_TO_63 <= first < TWO_TO_63 && |WriteFrom(Writing(first), ms, 0)| < TWO_TO_63
    requires forall i :: 0 <= i < |ms| ==> MessageInRange(ms[i])
    ensures ReadMany(Reading(first), WriteFrom(Writing(first), ms, 0), |ms|) == Some(ms)
  {
    forall i | 0 <= i < |ms| ensures ReadsBack(Reading(first), Writing(first), ms[i], i) {
      ItemWithin(Writing(first), ms, 0, i);
      RecordReadsBack(ms[i], i, first);
    }
    ManyRoundTrip(Reading(first), Writing(first), ms, 0);
  }

  // ----- Batches -----

  function Records(b: RecordBatch): seq<Byte> { WriteFrom(Writing(b.firstTimestamp), b.messages, 0) }

  /** What the checksum covers: attributes, last offset delta, timestamps, no producer, and the records. */
  function Covered(b: RecordBatch): seq<seq<Byte>>
    requires InRange(b)
  {
    [Digits(b.attributes, 2), Digits(b.lastOffsetDelta, 4), Digits(Unsigned64(b.firstTimestamp), 8),
     Digits(Unsigned64(b.maxTimestamp), 8), Digits(2 * TWO_TO_63 - 1, 8), Digits(0xFFFF, 2),
     Digits(TWO_TO_32 - 1, 4), Digits(|b.messages|, 4), Records(b)]
  }

  function Whole(firstOffset: nat, epoch: int, body: seq<Byte>, crc: Checksum): seq<seq<Byte>>
    requires -TWO_TO_31 <= epoch < TWO_TO_31
  {
    [Digits(firstOffset, 8), Digits(9 + |body|, 4), Digits(Unsigned32(epoch), 4), [2], Digits(crc(body), 4), body]
  }

  function Encode(b: RecordBatch, epoch: int, crc: Checksum): seq<Byte>
    requires InRange(b) && -TWO_TO_31 <= epoch < TWO_TO_31
  {
    Join(Whole(b.firstOffset, epoch, Join(Covered(b)), crc))
  }

  /** Checks length, magic and checksum, then reads the fields, and the records with `reading`. */
  function DecodeBy(reading: int -> Reader, d: seq<Byte>, crc: Checksum): Option<RecordBatch> {
    if |d| < RECORD_BATCH_OVERHEAD then None
    else
      var total := 12 + At(d, 8, 4);
      if total < RECORD_BATCH_OVERHEAD || |d| < total || d[16] != 2 || crc(d[21..total]) != At(d, 17, 4) then None
      else
        var first := Signed64(At(d, 27, 8));
        var ms := ReadMany(reading(first), d[61..total], At(d, 57, 4));
        if ms.None? then None
        else Some(RecordBatch(At(d, 0, 8), At(d, 21, 2), first, Signed64(At(d, 35, 8)), At(d, 23, 4), ms.value))
  }

  function Decode(d: seq<Byte>, crc: Checksum): Option<RecordBatch> { DecodeBy(Reading, d, crc) }

  lemma {:induction false} JoinStep(p: seq<seq<Byte>>, k: nat)
    requires k < |p|
    ensures Join(p[..k + 1]) == Join(p[..k]) + p[k]
  {
    assert p[..k + 1][..k] == p[..k];
  }

  lemma {:induction false} OuterLayout(p: seq<seq<Byte>>)
    requires |p| == 6 && |p[0]| == 8 && |p[1]| == 4 && |p[2]| == 4 && |p[3]| == 1 && |p[4]| == 4
    ensures var d := Join(p);
            && |d| == 21 + |p[5]| && d[0..8] == p[0] && d[8..12] == p[1] && d[12..16] == p[2] && d[16..17] == p[3]
            && d[17..21] == p[4] && d[21..21 + |p[5]|] == p[5]
  {
    PartAt(p, 0);
    PartAt(p, 1);
    PartAt(p, 2);
    PartAt(p, 3);
    PartAt(p, 4);
    PartAt(p, 5);
    assert p[..6] == p;
  }

  lemma {:induction false} BodyLayout(p: seq<seq<Byte>>)
    requires |p| == 9 && |p[0]| == 2 && |p[1]| == 4 && |p[2]| == 8 && |p[3]| == 8 && |p[4]| == 8 && |p[5]| == 2
    requires |p[6]| == 4 && |p[7]| == 4
    ensures var d := Join(p);
            && |d| == 40 + |p[8]| && d[0..2] == p[0] && d[2..6] == p[1] && d[6..14] == p[2] && d[14..22] == p[3]
            && d[22..30] == p[4] && d[30..32] == p[5] && d[32..36] == p[6]
            && d[36..40] == p[7] && d[40..40 + |p[8]|] == p[8]
  {
    PartAt(p, 0);
    PartAt(p, 1);
    PartAt(p, 2);
    PartAt(p, 3);
    PartAt(p, 4);
    PartAt(p, 5);
    PartAt(p, 6);
    PartAt(p, 7);
    PartAt(p, 8);
    assert p[..9] == p;
  }

  lemma {:induction false} FieldIs(d: seq<Byte>, i: nat, width: nat, x: nat)
    requires i + width <= |d| && d[i..i + width] == Digits(x, width) && x < Power(width)
    ensures At(d, i, width) == x
  {
    NumberOfDigits(x, width);
  }

  ghost predicate BodyHolds(d: seq<Byte>, b: RecordBatch, records: seq<Byte>)
    requires InRange(b)
  {
    && |d| == 40 + |records| && d[40..|d|] == records
    && At(d, 0, 2) == b.attributes && At(d, 2, 4) == b.lastOffsetDelta && At(d, 6, 8) == Unsigned64(b.firstTimestamp)
    && At(d, 14, 8) == Unsigned64(b.maxTimestamp) && At(d, 22, 8) == 2 * TWO_TO_63 - 1 && At(d, 30, 2) == 0xFFFF
    && At(d, 32, 4) == TWO_TO_32 - 1 && At(d, 36, 4) == |b.messages|
  }

  lemma {:induction false} BodyFields(b: RecordBatch)
    requires InRange(b)
    ensures BodyHolds(Join(Covered(b)), b, Records(b))
  {
    PowersOf256();
    var d := Join(Covered(b));
    BodyLayout(Covered(b));
    FieldIs(d, 0, 2, b.attributes);
    FieldIs(d, 2, 4, b.lastOffsetDelta);
    FieldIs(d, 6, 8, Unsigned64(b.firstTimestamp));
    FieldIs(d, 14, 8, Unsigned64(b.maxTimestamp));
    FieldIs(d, 22, 8, 2 * TWO_TO_63 - 1);
    FieldIs(d, 30, 2, 0xFFFF);
    FieldIs(d, 32, 4, TWO_TO_32 - 1);
    FieldIs(d, 36, 4, |b.messages|);
  }

  ghost predicate WholeHolds(d: seq<Byte>, firstOffset: nat, epoch: int, body: seq<Byte>, crc: Checksum)
    requires -TWO_TO_31 <= epoch < TWO_TO_31
  {
    && |d| == 21 + |body| && At(d, 0, 8) == firstOffset && At(d, 8, 4) == 9 + |body|
    && At(d, 12, 4) == Unsigned32(epoch) && d[16] == 2 && At(d, 17, 4) == crc(body) && d[21..|d|] == body
  }

  lemma {:induction false} WholeFields(firstOffset: nat, epoch: int, body: seq<Byte>, crc: Checksum)
    requires firstOffset < 2 * TWO_TO_63 && -TWO_TO_31 <= epoch < TWO_TO_31
    requires 9 + |body| < TWO_TO_32 && crc(body) < TWO_TO_32
    ensures WholeHolds(Join(Whole(firstOffset, epoch, body, crc)), firstOffset, epoch, body, crc)
  {
    PowersOf256();
    var p := Whole(firstOffset, epoch, body, crc);
    var d := Join(p);
    OuterLayout(p);
    FieldIs(d, 0, 8, firstOffset);
    FieldIs(d, 8, 4, 9 + |body|);
    FieldIs(d, 12, 4, Unsigned32(epoch));
    FieldIs(d, 17, 4, crc(body));
    assert d[16] == d[16..17][0];
  }

  lemma {:induction false} Inside(d: seq<Byte>, body: seq<Byte>, i: nat, width: nat)
    requires |d| == 21 + |body| && d[21..|d|] == body && i + width <= |body|
    ensures At(d, 21 + i, width) == At(body, i, width)
  {
    SliceOfSlice(d, 21, |d|, i, i + width);
  }

  /** What a reader finds in a written batch; producer id, producer epoch and base sequence are -1. */
  ghost predicate Holds(d: seq<Byte>, body: seq<Byte>, b: RecordBatch, records: seq<Byte>, epoch: int, crc: Checksum)
    requires InRange(b) && -TWO_TO_31 <= epoch < TWO_TO_31
  {
    && WholeHolds(d, b.firstOffset, epoch, body, crc) && |body| >= 40
    && At(d, 21, 2) == b.attributes && At(d, 23, 4) == b.lastOffsetDelta
    && At(d, 27, 8) == Unsigned64(b.firstTimestamp) && At(d, 35, 8) == Unsigned64(b.maxTimestamp)
    && At(d, 43, 8) == 2 * TWO_TO_63 - 1 && At(d, 51, 2) == 0xFFFF && At(d, 53, 4) == TWO_TO_32 - 1
    && At(d, 57, 4) == |b.messages| && d[61..|d|] == records
  }

  lemma {:induction false} HoldsInside(d: seq<Byte>, body: seq<Byte>, b: RecordBatch, records: seq<Byte>,
                                       epoch: int, crc: Checksum)
    requires InRange(b) && -TWO_TO_31 <= epoch < TWO_TO_31
    requires WholeHolds(d, b.firstOffset, epoch, body, crc) && BodyHolds(body, b, records)
    ensures Holds(d, body, b, records, epoch, crc)
  {
    Inside(d, body, 0, 2);
    Inside(d, body, 2, 4);
    Inside(d, body, 6, 8);
    Inside(d, body, 14, 8);
    Inside(d, body, 22, 8);
    Inside(d, body, 30, 2);
    Inside(d, body, 32, 4);
    Inside(d, body, 36, 4);
    SliceOfSlice(d, 21, |d|, 40, |body|);
  }

  /** The length and the checksum have 32 bits. */
  ghost predicate Fits(b: RecordBatch, crc: Checksum)
    requires InRange(b)
  {
    9 + |Join(Covered(b))| < TWO_TO_32 && crc(Join(Covered(b))) < TWO_TO_32
  }

  lemma {:induction false} EncodedFields(b: RecordBatch, epoch: int, crc: Checksum)
    requires InRange(b) && -TWO_TO_31 <= epoch < TWO_TO_31 && Fits(b, crc)
    ensures Holds(Encode(b, epoch, crc), Join(Covered(b)), b, Records(b), epoch, crc)
    ensures |Join(Covered(b))| == 40 + |Records(b)|
  {
    BodyFields(b);
    WholeFields(b.firstOffset, epoch, Join(Covered(b)), crc);
    HoldsInside(Encode(b, epoch, crc), Join(Covered(b)), b, Records(b), epoch, crc);
  }

  lemma {:induction false} DecodeFrom(reading: int -> Reader, d: seq<Byte>, body: seq<Byte>, b: RecordBatch,
                                      records: seq<Byte>, epoch: int, crc: Checksum)
    requires InRange(b) && -TWO_TO_31 <= epoch < TWO_TO_31 && Holds(d, body, b, records, epoch, crc)
    requires ReadMany(reading(b.firstTimestamp), records, |b.messages|) == Some(b.messages)
    ensures DecodeBy(reading, d, crc) == Some(b)
  {
  }

  /** Reading a written batch gives the batch back: nothing is lost or changed. */
  lemma {:induction false} DecodeOfEncode(b: RecordBatch, epoch: int, crc: Checksum)
    requires InRange(b) && -TWO_TO_31 <= epoch < TWO_TO_31 && Fits(b, crc)
    ensures Decode(Encode(b, epoch, crc), crc) == Some(b)
  {
    EncodedFields(b, epoch, crc);
    RecordsRoundTrip(b.messages, b.firstTimestamp);
    DecodeFrom(Reading, Encode(b, epoch, crc), Join(Covered(b)), b, Records(b), epoch, crc);
  }

  /** A written batch is one the broker accepts exactly when its counts and sizes are right. */
  lemma {:induction false} EncodedIsBatch(b: RecordBatch, epoch: int, crc: Checksum)
    requires InRange(b) && -TWO_TO_31 <= epoch < TWO_TO_31 && Fits(b, crc)
    ensures IsBatch(Encode(b, epoch, crc), crc) <==>
      && 0 < |b.messages| < TWO_TO_31 && b.lastOffsetDelta == |b.messages| - 1 && b.firstOffset < TWO_TO_63
      && 9 + |Join(Covered(b))| < TWO_TO_31
  {
    EncodedFields(b, epoch, crc);
  }

  /** Whatever bytes are read as a batch have the right length, format and checksum, and its fields are theirs. */
  lemma {:induction false} DecodedFields(d: seq<Byte>, crc: Checksum)
    requires Decode(d, crc).Some?
    ensures |d| >= RECORD_BATCH_OVERHEAD && RECORD_BATCH_OVERHEAD <= 12 + At(d, 8, 4) <= |d|
    ensures d[16] == 2 && At(d, 17, 4) == crc(d[21..12 + At(d, 8, 4)])
    ensures var b := Decode(d, crc).value;
            && b.firstOffset == At(d, 0, 8) && b.attributes == At(d, 21, 2) && b.lastOffsetDelta == At(d, 23, 4)
            && Signed64(At(d, 27, 8)) == b.firstTimestamp && Signed64(At(d, 35, 8)) == b.maxTimestamp
            && |b.messages| == At(d, 57, 4)
  {
    ReadCount(Reading(Signed64(At(d, 27, 8))), d[61..12 + At(d, 8, 4)], At(d, 57, 4));
  }

  /** A record is only read when as many bytes as it claims are there. */
  lemma {:induction false} RecordWithin(d: seq<Byte>, first: int)
    requires ReadRecord(d, first).Some?
    ensures ReadVarint(d).Some? && |ReadVarint(d).value.rest| > 0
    ensures ReadVarint(d).value.value <= |ReadVarint(d).value.rest|
  {
  }

  lemma {:induction false} ReadCount(read: Reader, d: seq<Byte>, n: nat)
    requires ReadMany(read, d, n).Some?
    ensures |ReadMany(read, d, n).value| == n
    decreases n
  {
    if n > 0 { ReadCount(read, read(d).value.rest, n - 1); }
  }
}
