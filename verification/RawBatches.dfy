/**
 Record batches as bytes (magic 2): validating and splitting what a client sends, stamping it,
 and recovering a segment file whose end was lost.

 Layout, big-endian: base offset [0:8], length of the rest [8:12], leader epoch [12:16],
 magic [16], checksum [17:21] of everything from [21] on, last offset delta [23:27],
 record count [57:61], records from [61] on.
 */
module RawBatches {
  import opened Batches
  import opened PartitionModel
  import opened SegmentedLog

  /** The CRC-32C of a byte string. */
  type Checksum = seq<Byte> -> nat

  // ----- Numbers -----

  function Number(b: seq<Byte>): nat {
    if |b| == 0 then 0 else 256 * Number(b[..|b| - 1]) + b[|b| - 1]
  }

  function Digits(x: nat, width: nat): (b: seq<Byte>)
    ensures |b| == width
  {
    if width == 0 then [] else Digits(x / 256, width - 1) + [(x % 256) as Byte]
  }

  function Power(width: nat): nat { if width == 0 then 1 else 256 * Power(width - 1) }

  lemma {:induction false} NumberOfDigits(x: nat, width: nat)
    requires x < Power(width)
    ensures Number(Digits(x, width)) == x
  {
    if width > 0 {
      assert x / 256 < Power(width - 1);
      NumberOfDigits(x / 256, width - 1);
      assert Digits(x, width)[..width - 1] == Digits(x / 256, width - 1);
    }
  }

  lemma {:induction false} TimesPower(x: nat, p: nat)
    ensures 256 * (x * p) == x * (256 * p)
  {
  }

  lemma {:induction false} FirstAndRest(b: seq<Byte>, n: nat)
    requires n == |b| - 1 > 0
    ensures b[..n][0] == b[0] && b[..n][1..] == b[1..][..n - 1] && |b[1..]| == n && b[1..][n - 1] == b[n]
  {
  }

  /** The first byte is the most significant one. */
  lemma {:induction false} NumberFromFirst(b: seq<Byte>)
    requires |b| > 0
    ensures Number(b) == b[0] * Power(|b| - 1) + Number(b[1..])
  {
    var n := |b| - 1;
    if n > 0 {
      NumberFromFirst(b[..n]);
      FirstAndRest(b, n);
      TimesPower(b[0], Power(n - 1));
      assert Number(b) == 256 * Number(b[..n]) + b[n] && Number(b[1..]) == 256 * Number(b[1..][..n - 1]) + b[n];
    }
  }

  function At(b: seq<Byte>, i: nat, width: nat): nat
    requires i + width <= |b|
  {
    Number(b[i..i + width])
  }

  function Signed32(x: nat): int { if x < TWO_TO_31 then x else x - TWO_TO_32 }

  function Unsigned32(x: int): nat
    requires -TWO_TO_31 <= x < TWO_TO_31
  {
    if x >= 0 then x else x + TWO_TO_32
  }

  // ----- One batch -----

  /** Size of the batch that `d` starts with, if it starts with a valid one. */
  function Head(d: seq<Byte>, crc: Checksum): Option<nat> {
    if |d| < RECORD_BATCH_OVERHEAD then None
    else
      var size := 12 + At(d, 8, 4);
      if At(d, 8, 4) >= TWO_TO_31 || size < RECORD_BATCH_OVERHEAD || |d| < size || d[16] != 2 then None
      else if crc(d[21..size]) != At(d, 17, 4) then None
      else if At(d, 23, 4) >= TWO_TO_31 || !(0 < At(d, 57, 4) < TWO_TO_31) || At(d, 23, 4) != At(d, 57, 4) - 1 then None
      else if At(d, 0, 8) >= TWO_TO_63 then None
      else Some(size)
  }

  /** One valid batch and nothing more. */
  predicate IsBatch(b: seq<Byte>, crc: Checksum) { Head(b, crc) == Some(|b|) }

  /** A batch is valid if and only if its length, format, checksum, counts and offset are right. */
  lemma {:induction false} BatchIs(b: seq<Byte>, crc: Checksum)
    ensures IsBatch(b, crc) <==>
            && |b| >= RECORD_BATCH_OVERHEAD && At(b, 8, 4) + 12 == |b| < TWO_TO_31 + 12
            && b[16] == 2 && At(b, 17, 4) == crc(b[21..|b|])
            && 0 < At(b, 57, 4) < TWO_TO_31 && At(b, 23, 4) == At(b, 57, 4) - 1 && At(b, 0, 8) < TWO_TO_63
  {
  }

  /** Fields lie in the header, so what follows a batch does not matter. */
  lemma {:induction false} SameHeader(b: seq<Byte>, d: seq<Byte>, i: nat, width: nat)
    requires b <= d && i + width <= |b|
    ensures At(d, i, width) == At(b, i, width)
  {
    assert d[i..i + width] == b[i..i + width];
  }

  lemma {:induction false} SameHeaders(b: seq<Byte>, d: seq<Byte>)
    requires b <= d && |b| >= RECORD_BATCH_OVERHEAD
    ensures At(d, 0, 8) == At(b, 0, 8) && At(d, 8, 4) == At(b, 8, 4) && At(d, 12, 4) == At(b, 12, 4)
    ensures d[16] == b[16] && At(d, 17, 4) == At(b, 17, 4)
    ensures At(d, 23, 4) == At(b, 23, 4) && At(d, 57, 4) == At(b, 57, 4)
  {
    SameHeader(b, d, 0, 8);
    SameHeader(b, d, 8, 4);
    SameHeader(b, d, 12, 4);
    SameHeader(b, d, 17, 4);
    SameHeader(b, d, 23, 4);
    SameHeader(b, d, 57, 4);
  }

  /** `d` starts with a batch of `n` bytes exactly when its first `n` bytes are a batch. */
  lemma {:induction false} HeadIsPrefix(d: seq<Byte>, n: nat, crc: Checksum)
    requires n <= |d|
    ensures Head(d, crc) == Some(n) <==> IsBatch(d[..n], crc)
  {
    if n >= RECORD_BATCH_OVERHEAD {
      SameHeaders(d[..n], d);
      if 12 + At(d, 8, 4) == n { assert d[..n][21..n] == d[21..n]; }
    }
  }

  // ----- Runs of batches -----

  function Join(parts: seq<seq<Byte>>): seq<Byte> {
    if |parts| == 0 then [] else Join(parts[..|parts| - 1]) + parts[|parts| - 1]
  }

  ghost predicate AllBatches(parts: seq<seq<Byte>>, crc: Checksum) {
    forall i :: 0 <= i < |parts| ==> IsBatch(parts[i], crc)
  }

  /** The byte string is these batches, back to back. */
  ghost predicate Tiles(d: seq<Byte>, parts: seq<seq<Byte>>, crc: Checksum) {
    d == Join(parts) && AllBatches(parts, crc)
  }

  lemma {:induction false} JoinPrefix(parts: seq<seq<Byte>>, k: nat)
    requires k <= |parts|
    ensures Join(parts[..k]) <= Join(parts)
  {
    if k == |parts| {
      assert parts[..k] == parts;
    } else {
      assert parts[..|parts| - 1][..k] == parts[..k];
      JoinPrefix(parts[..|parts| - 1], k);
    }
  }

  /** Part `k` is found where the parts before it end. */
  lemma {:induction false} PartAt(parts: seq<seq<Byte>>, k: nat)
    requires k < |parts|
    ensures var pos := |Join(parts[..k])|;
            pos + |parts[k]| == |Join(parts[..k + 1])| <= |Join(parts)|
              && Join(parts)[pos..pos + |parts[k]|] == parts[k]
  {
    JoinPrefix(parts, k + 1);
    assert parts[..k + 1][..k] == parts[..k];
  }

  /** At the end of the first `k` batches the next one is recognised, whatever follows it. */
  lemma {:induction false} NextBatch(d: seq<Byte>, parts: seq<seq<Byte>>, k: nat, crc: Checksum)
    requires Join(parts) <= d && AllBatches(parts, crc) && k < |parts|
    ensures var pos := |Join(parts[..k])|;
            && pos + |parts[k]| == |Join(parts[..k + 1])| <= |d|
            && Head(d[pos..], crc) == Some(|parts[k]|) && d[pos..][..|parts[k]|] == parts[k]
  {
    PartAt(parts, k);
    var pos := |Join(parts[..k])|;
    SamePart(d, Join(parts), pos, |parts[k]|);
    HeadIsPrefix(d[pos..], |parts[k]|, crc);
  }

  lemma {:induction false} SamePart(d: seq<Byte>, j: seq<Byte>, pos: nat, n: nat)
    requires j <= d && pos + n <= |j|
    ensures d[pos..][..n] == j[pos..pos + n]
  {
  }

  lemma {:induction false} SameNext(d: seq<Byte>, ps: seq<seq<Byte>>, qs: seq<seq<Byte>>, n: nat, crc: Checksum)
    requires Join(ps) <= d && AllBatches(ps, crc) && Join(qs) <= d && AllBatches(qs, crc)
    requires n < |ps| && n < |qs| && ps[..n] == qs[..n]
    ensures ps[n] == qs[n]
  {
    NextBatch(d, ps, n, crc);
    NextBatch(d, qs, n, crc);
  }

  lemma {:induction false} SameLength(d: seq<Byte>, ps: seq<seq<Byte>>, qs: seq<seq<Byte>>, n: nat, crc: Checksum)
    requires Join(ps) <= d && AllBatches(ps, crc) && d == Join(qs)
    requires n < |ps| && n <= |qs| && ps[..n] == qs[..n]
    ensures n < |qs|
  {
    assert qs[..|qs|] == qs;
    NextBatch(d, ps, n, crc);
    assert |ps[n]| > 0;
  }

  /** A byte string can be split into batches in one way only. */
  lemma {:induction false} TilingUnique(d: seq<Byte>, ps: seq<seq<Byte>>, qs: seq<seq<Byte>>, crc: Checksum)
    requires Join(ps) <= d && AllBatches(ps, crc) && Tiles(d, qs, crc)
    ensures ps <= qs
  {
    if |ps| > 0 {
      var n := |ps| - 1;
      JoinPrefix(ps, n);
      TilingUnique(d, ps[..n], qs, crc);
      SameLength(d, ps, qs, n, crc);
      SameNext(d, ps, qs, n, crc);
    }
  }

  // ----- Splitting what a client sent -----

  datatype Bounds = Bounds(offset: nat, size: nat, lastOffsetDelta: nat, base: nat, epoch: int)

  function BoundsOf(b: seq<Byte>, offset: nat): Bounds
    requires |b| >= RECORD_BATCH_OVERHEAD
  {
    Bounds(offset, |b|, At(b, 23, 4), At(b, 0, 8), Signed32(At(b, 12, 4)))
  }

  /** The bounds describe the parts, one after another. */
  ghost predicate Describe(bounds: seq<Bounds>, parts: seq<seq<Byte>>) {
    && |bounds| == |parts|
    && forall i :: 0 <= i < |parts| ==>
                     && |parts[i]| >= RECORD_BATCH_OVERHEAD
                     && bounds[i] == BoundsOf(parts[i], |Join(parts[..i])|)
  }

  lemma {:induction false} DescribeOneMore(bounds: seq<Bounds>, parts: seq<seq<Byte>>, b: seq<Byte>)
    requires Describe(bounds, parts) && |b| >= RECORD_BATCH_OVERHEAD
    ensures Describe(bounds + [BoundsOf(b, |Join(parts)|)], parts + [b]) && Join(parts + [b]) == Join(parts) + b
  {
    var ps := parts + [b];
    assert ps[..|parts|] == parts;
    forall i | 0 <= i < |parts| ensures ps[..i] == parts[..i] {}
  }

  ghost predicate ScannedTo(d: seq<Byte>, pos: nat, found: seq<Bounds>, parts: seq<seq<Byte>>, crc: Checksum) {
    pos <= |d| && d[..pos] == Join(parts) && AllBatches(parts, crc) && Describe(found, parts)
  }

  lemma {:induction false} ScanStep(d: seq<Byte>, pos: nat, found: seq<Bounds>, parts: seq<seq<Byte>>,
                                    crc: Checksum, n: nat)
    requires ScannedTo(d, pos, found, parts, crc) && Head(d[pos..], crc) == Some(n)
    ensures ScannedTo(d, pos + n, found + [BoundsOf(d[pos..], pos).(size := n)], parts + [d[pos..][..n]], crc)
  {
    var b := d[pos..][..n];
    HeadIsPrefix(d[pos..], n, crc);
    SameHeaders(b, d[pos..]);
    DescribeOneMore(found, parts, b);
    assert d[..pos + n] == d[..pos] + b;
  }

  /**
   Splits the input into batches. Succeeds exactly when it is a sequence of valid batches, and
   the bounds then cover it without gap or overlap.
   */
  method ScanRawBatches(d: seq<Byte>, crc: Checksum)
    returns (bounds: Option<seq<Bounds>>, ghost parts: seq<seq<Byte>>)
    ensures bounds.Some? <==> exists qs :: Tiles(d, qs, crc)
    ensures bounds.Some? ==> Tiles(d, parts, crc) && Describe(bounds.value, parts)
  {
    var found: seq<Bounds> := [];
    parts := [];
    var pos := 0;
    while pos < |d|
      invariant ScannedTo(d, pos, found, parts, crc)
      decreases |d| - pos
    {
      var h := d[pos..];
      var size := Head(h, crc);
      if size.None? {
        forall qs ensures !Tiles(d, qs, crc) { Stuck(d, parts, qs, crc); }
        return None, parts;
      }
      ScanStep(d, pos, found, parts, crc, size.value);
      found := found + [BoundsOf(h, pos).(size := size.value)];
      parts := parts + [h[..size.value]];
      pos := pos + size.value;
    }
    assert d[..pos] == d;
    assert Tiles(d, parts, crc);
    bounds := Some(found);
  }

  /** No tiling exists when the bytes after some batches start with none. */
  lemma {:induction false} Stuck(d: seq<Byte>, parts: seq<seq<Byte>>, qs: seq<seq<Byte>>, crc: Checksum)
    requires Join(parts) < d && AllBatches(parts, crc) && Head(d[|Join(parts)|..], crc).None?
    ensures !Tiles(d, qs, crc)
  {
    if Tiles(d, qs, crc) {
      assert qs[..|qs|] == qs;
      TilingUnique(d, parts, qs, crc);
      assert qs[..|parts|] == parts;
      if |parts| < |qs| { NextBatch(d, qs, |parts|, crc); }
    }
  }

  // ----- What the log sees of a batch -----

  /** A batch as the log model has it; anything shorter than a header counts as an empty header. */
  function AsBatch(b: seq<Byte>): Batch {
    if |b| < RECORD_BATCH_OVERHEAD then Batch(0, 1, 0, RECORD_BATCH_OVERHEAD, [])
    else Batch(At(b, 0, 8), At(b, 23, 4) + 1, Signed32(At(b, 12, 4)), |b|, b[21..])
  }

  function AsBatches(parts: seq<seq<Byte>>): (r: seq<Batch>)
    ensures |r| == |parts| && forall i :: 0 <= i < |parts| ==> r[i] == AsBatch(parts[i])
  {
    seq(|parts|, i requires 0 <= i < |parts| => AsBatch(parts[i]))
  }

  /** The bounds of a split say of each batch what the log will see of it. */
  lemma {:induction false} BoundsAgree(bounds: seq<Bounds>, parts: seq<seq<Byte>>, i: nat)
    requires Describe(bounds, parts) && i < |parts|
    ensures bounds[i].offset == |Join(parts[..i])|
    ensures var b := AsBatches(parts)[i];
            && bounds[i].base == b.base && bounds[i].lastOffsetDelta == b.count - 1 && bounds[i].epoch == b.epoch
            && bounds[i].size == b.size
  {
  }

  /** What the scan lets through is what the log operations expect. */
  lemma {:induction false} TilesAreScanned(d: seq<Byte>, parts: seq<seq<Byte>>, crc: Checksum)
    requires Tiles(d, parts, crc)
    ensures Scanned(AsBatches(parts)) && WellFormedData(AsBatches(parts))
  {
    forall i | 0 <= i < |parts|
      ensures |parts[i]| >= RECORD_BATCH_OVERHEAD && At(parts[i], 0, 8) < TWO_TO_63
              && At(parts[i], 23, 4) + 1 < TWO_TO_31
    {
      assert IsBatch(parts[i], crc);
    }
  }

  // ----- Stamping -----

  /** Overwrites base offset and leader epoch; both lie before the checksummed part. */
  function Stamped(b: seq<Byte>, offset: nat, epoch: int): (r: seq<Byte>)
    requires -TWO_TO_31 <= epoch < TWO_TO_31
    ensures |r| == |b|
  {
    if |b| < RECORD_BATCH_OVERHEAD then b
    else Digits(offset, 8) + b[8..12] + Digits(Unsigned32(epoch), 4) + b[16..]
  }

  lemma {:induction false} PowersOf256()
    ensures Power(2) == 0x1_0000 && Power(4) == TWO_TO_32 && Power(8) == TWO_TO_63 * 2
  {
    assert Power(1) == 256 && Power(2) == 65536 && Power(3) == 0x100_0000 && Power(4) == 0x1_0000_0000;
    assert Power(5) == 0x100_0000_0000 && Power(6) == 0x1_0000_0000_0000 && Power(7) == 0x100_0000_0000_0000;
  }

  /** Stamping changes exactly the base offset and the epoch. */
  lemma {:induction false} StampedFields(b: seq<Byte>, offset: nat, epoch: int)
    requires |b| >= RECORD_BATCH_OVERHEAD && offset <= MAX_OFFSET && -TWO_TO_31 <= epoch < TWO_TO_31
    ensures AsBatch(Stamped(b, offset, epoch)) == AsBatch(b).(base := offset, epoch := epoch)
  {
    var r := Stamped(b, offset, epoch);
    PowersOf256();
    NumberOfDigits(offset, 8);
    NumberOfDigits(Unsigned32(epoch), 4);
    assert r[0..8] == Digits(offset, 8) && r[12..16] == Digits(Unsigned32(epoch), 4);
    assert r[23..27] == b[23..27] && r[21..] == b[21..];
  }

  /** No checksum covers what is overwritten: the batch stays valid exactly while offsets have 63 bits. */
  lemma {:induction false} StampedValid(b: seq<Byte>, offset: nat, epoch: int, crc: Checksum)
    requires IsBatch(b, crc) && offset <= MAX_OFFSET && -TWO_TO_31 <= epoch < TWO_TO_31
    ensures IsBatch(Stamped(b, offset, epoch), crc) <==> offset < TWO_TO_63
  {
    var r := Stamped(b, offset, epoch);
    StampedFields(b, offset, epoch);
    assert At(r, 0, 8) == offset;
    assert r[8..12] == b[8..12] && r[16] == b[16] && r[17..21] == b[17..21];
    assert r[23..27] == b[23..27] && r[57..61] == b[57..61] && r[21..|r|] == b[21..|b|];
  }

  /** Where batch `i` of a run that starts at `first` starts. */
  function OffsetOf(data: seq<Batch>, first: nat, i: nat): nat
    requires i <= |data|
  {
    first + Records(data[..i])
  }

  lemma {:induction false} StampAt(data: seq<Batch>, first: nat, epoch: int, i: nat)
    requires i < |data|
    ensures Stamp(data, first, epoch)[i] == data[i].(base := OffsetOf(data, first, i), epoch := epoch)
    ensures OffsetOf(data, first, i) + data[i].count <= first + Records(data)
  {
    var n := |data| - 1;
    if i < n {
      StampAt(data[..n], first, epoch, i);
      assert data[..n][..i] == data[..i];
    }
  }

  /** Consecutive base offsets from `first` on, and the leader's epoch. */
  function StampAll(parts: seq<seq<Byte>>, first: nat, epoch: int): (r: seq<seq<Byte>>)
    requires -TWO_TO_31 <= epoch < TWO_TO_31
    ensures |r| == |parts|
  {
    seq(|parts|, i requires 0 <= i < |parts| => Stamped(parts[i], OffsetOf(AsBatches(parts), first, i), epoch))
  }

  /** Stamping the bytes is stamping the batches, as the partition model has it. */
  lemma {:induction false} StampAllIs(parts: seq<seq<Byte>>, first: nat, epoch: int)
    requires (forall i :: 0 <= i < |parts| ==> |parts[i]| >= RECORD_BATCH_OVERHEAD)
    requires -TWO_TO_31 <= epoch < TWO_TO_31 && first + Records(AsBatches(parts)) <= MAX_OFFSET
    ensures AsBatches(StampAll(parts, first, epoch)) == Stamp(AsBatches(parts), first, epoch)
  {
    forall i | 0 <= i < |parts|
      ensures AsBatches(StampAll(parts, first, epoch))[i] == Stamp(AsBatches(parts), first, epoch)[i]
    {
      StampAt(AsBatches(parts), first, epoch, i);
      StampedFields(parts[i], OffsetOf(AsBatches(parts), first, i), epoch);
    }
  }

  /** Stamped batches are valid batches. */
  lemma {:induction false} StampAllValid(parts: seq<seq<Byte>>, first: nat, epoch: int, crc: Checksum)
    requires AllBatches(parts, crc) && -TWO_TO_31 <= epoch < TWO_TO_31
    requires first + Records(AsBatches(parts)) <= TWO_TO_63
    ensures AllBatches(StampAll(parts, first, epoch), crc)
  {
    forall i | 0 <= i < |parts| ensures IsBatch(StampAll(parts, first, epoch)[i], crc) {
      StampAt(AsBatches(parts), first, epoch, i);
      assert AsBatches(parts)[i] == AsBatch(parts[i]) && AsBatch(parts[i]).count > 0;
      StampedValid(parts[i], OffsetOf(AsBatches(parts), first, i), epoch, crc);
    }
  }

  function Spliced(s: seq<Byte>, pos: nat, x: seq<Byte>): seq<Byte>
    requires pos + |x| <= |s|
  {
    s[..pos] + x + s[pos + |x|..]
  }

  method Put(buf: array<Byte>, pos: nat, x: nat, width: nat)
    requires pos + width <= buf.Length
    modifies buf
    ensures buf[..] == Spliced(old(buf[..]), pos, Digits(x, width))
  {
    var ds := Digits(x, width);
    var i := 0;
    while i < width
      invariant 0 <= i <= width
      invariant buf[..] == Spliced(old(buf[..]), pos, ds[..i])
    {
      buf[pos + i] := ds[i];
      i := i + 1;
    }
    assert ds[..i] == ds;
  }

  lemma {:induction false} SliceOfSlice<T>(s: seq<T>, a: nat, b: nat, i: nat, j: nat)
    requires a <= b <= |s| && i <= j <= b - a
    ensures s[a..b][i..j] == s[a + i..a + j]
  {
    forall k | 0 <= k < j - i ensures s[a..b][i..j][k] == s[a + i..a + j][k] {}
  }

  lemma {:induction false} SplicedTwice(s: seq<Byte>, pos: nat, b: seq<Byte>, x: seq<Byte>, y: seq<Byte>)
    requires |b| >= RECORD_BATCH_OVERHEAD && pos + |b| <= |s| && s[pos..pos + |b|] == b && |x| == 8 && |y| == 4
    ensures Spliced(Spliced(s, pos, x), pos + 12, y) == Spliced(s, pos, x + b[8..12] + y + b[16..])
  {
    SliceOfSlice(s, pos, pos + |b|, 8, 12);
    SliceOfSlice(s, pos, pos + |b|, 16, |b|);
    assert b[16..] == b[16..|b|];
  }

  /** One batch of the buffer is overwritten in place. */
  method StampBatch(buf: array<Byte>, pos: nat, offset: nat, epoch: int, ghost b: seq<Byte>)
    requires |b| >= RECORD_BATCH_OVERHEAD && pos + |b| <= buf.Length && buf[pos..pos + |b|] == b
    requires -TWO_TO_31 <= epoch < TWO_TO_31
    modifies buf
    ensures buf[..] == Spliced(old(buf[..]), pos, Stamped(b, offset, epoch))
  {
    SplicedTwice(buf[..], pos, b, Digits(offset, 8), Digits(Unsigned32(epoch), 4));
    Put(buf, pos, offset, 8);
    Put(buf, pos + 12, Unsigned32(epoch), 4);
  }

  lemma {:induction false} StampAllJoin(parts: seq<seq<Byte>>, stamped: seq<seq<Byte>>, i: nat)
    requires |stamped| == |parts| && i <= |parts|
    requires forall k :: 0 <= k < |parts| ==> |stamped[k]| == |parts[k]|
    ensures |Join(stamped[..i])| == |Join(parts[..i])|
  {
    if i > 0 {
      StampAllJoin(parts, stamped, i - 1);
      assert parts[..i][..i - 1] == parts[..i - 1] && stamped[..i][..i - 1] == stamped[..i - 1];
    }
  }

  /** Replacing part `i` after the parts before it were replaced. */
  lemma {:induction false} ReplacePart(parts: seq<seq<Byte>>, stamped: seq<seq<Byte>>, i: nat)
    requires |stamped| == |parts| && i < |parts|
    requires forall k :: 0 <= k < |parts| ==> |stamped[k]| == |parts[k]|
    ensures |Join(stamped[..i])| == |Join(parts[..i])|
    ensures |Join(parts[..i])| + |parts[i]| == |Join(parts[..i + 1])| <= |Join(parts)|
    ensures var pos, d := |Join(parts[..i])|, Join(parts);
            var s := Join(stamped[..i]) + d[pos..];
            && |s| == |d| && s[pos..pos + |parts[i]|] == parts[i]
            && Spliced(s, pos, stamped[i]) == Join(stamped[..i + 1]) + d[pos + |parts[i]|..]
  {
    StampAllJoin(parts, stamped, i);
    PartAt(parts, i);
    assert stamped[..i + 1][..i] == stamped[..i];
  }

  /** The buffer when the first `i` parts are replaced. */
  ghost predicate ReplacedUpTo(s: seq<Byte>, parts: seq<seq<Byte>>, stamped: seq<seq<Byte>>, i: nat)
    requires i <= |parts| == |stamped|
  {
    |Join(parts[..i])| <= |Join(parts)| && s == Join(stamped[..i]) + Join(parts)[|Join(parts[..i])|..]
  }

  lemma {:induction false} ReplacedNone(parts: seq<seq<Byte>>, stamped: seq<seq<Byte>>)
    requires |parts| == |stamped|
    ensures ReplacedUpTo(Join(parts), parts, stamped, 0)
  {
    assert parts[..0] == [] && stamped[..0] == [];
  }

  lemma {:induction false} ReplacedAll(s: seq<Byte>, parts: seq<seq<Byte>>, stamped: seq<seq<Byte>>)
    requires |parts| == |stamped| && ReplacedUpTo(s, parts, stamped, |parts|)
    ensures s == Join(stamped)
  {
    assert parts[..|parts|] == parts && stamped[..|parts|] == stamped;
  }

  ghost predicate SameSizes(parts: seq<seq<Byte>>, stamped: seq<seq<Byte>>) {
    |parts| == |stamped| && forall k :: 0 <= k < |parts| ==> |stamped[k]| == |parts[k]|
  }

  /** Part `i` is still in its place. */
  lemma {:induction false} ReplacedBefore(s: seq<Byte>, parts: seq<seq<Byte>>, stamped: seq<seq<Byte>>, i: nat)
    requires SameSizes(parts, stamped) && i < |parts| && ReplacedUpTo(s, parts, stamped, i)
    ensures var pos := |Join(parts[..i])|; pos + |parts[i]| <= |s| && s[pos..pos + |parts[i]|] == parts[i]
  {
    ReplacePart(parts, stamped, i);
  }

  lemma {:induction false} ReplacedAfter(s: seq<Byte>, s': seq<Byte>, parts: seq<seq<Byte>>,
                                         stamped: seq<seq<Byte>>, i: nat)
    requires SameSizes(parts, stamped) && i < |parts| && ReplacedUpTo(s, parts, stamped, i)
    requires var pos := |Join(parts[..i])|; pos + |stamped[i]| <= |s| && s' == Spliced(s, pos, stamped[i])
    ensures ReplacedUpTo(s', parts, stamped, i + 1)
  {
    ReplacePart(parts, stamped, i);
  }

  method StampNext(buf: array<Byte>, pos: nat, offset: nat, epoch: int,
                   ghost parts: seq<seq<Byte>>, ghost stamped: seq<seq<Byte>>, ghost i: nat)
    requires SameSizes(parts, stamped) && i < |parts| && pos == |Join(parts[..i])|
    requires ReplacedUpTo(buf[..], parts, stamped, i)
    requires -TWO_TO_31 <= epoch < TWO_TO_31 && |parts[i]| >= RECORD_BATCH_OVERHEAD
    requires stamped[i] == Stamped(parts[i], offset, epoch)
    modifies buf
    ensures ReplacedUpTo(buf[..], parts, stamped, i + 1)
  {
    ghost var s := buf[..];
    ReplacedBefore(s, parts, stamped, i);
    StampBatch(buf, pos, offset, epoch, parts[i]);
    ReplacedAfter(s, buf[..], parts, stamped, i);
  }

  lemma {:induction false} OffsetStep(parts: seq<seq<Byte>>, first: nat, i: nat)
    requires i < |parts| && |parts[i]| >= RECORD_BATCH_OVERHEAD
    ensures var data := AsBatches(parts);
            && OffsetOf(data, first, i + 1) == OffsetOf(data, first, i) + At(parts[i], 23, 4) + 1
            && OffsetOf(data, first, i + 1) <= first + Records(data)
  {
    var data := AsBatches(parts);
    StampAt(data, first, 0, i);
    assert data[..i + 1][..i] == data[..i];
  }

  /** How each part is to be stamped: where it lies, its base offset, and its stamped form. */
  ghost predicate Plan(parts: seq<seq<Byte>>, bounds: seq<Bounds>, offsets: seq<nat>, stamped: seq<seq<Byte>>,
                       epoch: int) {
    && -TWO_TO_31 <= epoch < TWO_TO_31 && |bounds| == |stamped| == |parts| && |offsets| == |parts| + 1
    && SameSizes(parts, stamped)
    && forall i :: 0 <= i < |parts| ==> PlanAt(parts, bounds[i], offsets, stamped, epoch, i)
  }

  ghost predicate PlanAt(parts: seq<seq<Byte>>, b: Bounds, offsets: seq<nat>, stamped: seq<seq<Byte>>, epoch: int,
                         i: nat)
    requires -TWO_TO_31 <= epoch < TWO_TO_31 && i < |parts| == |stamped| && |offsets| == |parts| + 1
  {
    && |parts[i]| >= RECORD_BATCH_OVERHEAD && b.offset == |Join(parts[..i])|
    && offsets[i + 1] == offsets[i] + b.lastOffsetDelta + 1 <= offsets[|parts|]
    && stamped[i] == Stamped(parts[i], offsets[i], epoch)
  }

  lemma {:induction false} PlanOne(parts: seq<seq<Byte>>, bounds: seq<Bounds>, first: nat, epoch: int, i: nat)
    requires Describe(bounds, parts) && -TWO_TO_31 <= epoch < TWO_TO_31 && i < |parts|
    ensures var o, o' := OffsetOf(AsBatches(parts), first, i), OffsetOf(AsBatches(parts), first, i + 1);
            && |parts[i]| >= RECORD_BATCH_OVERHEAD && bounds[i].offset == |Join(parts[..i])|
            && o' == o + bounds[i].lastOffsetDelta + 1 <= first + Records(AsBatches(parts))
            && StampAll(parts, first, epoch)[i] == Stamped(parts[i], o, epoch)
  {
    OffsetStep(parts, first, i);
  }

  lemma {:induction false} PlanOf(parts: seq<seq<Byte>>, bounds: seq<Bounds>, first: nat, epoch: int)
    returns (offsets: seq<nat>)
    requires Describe(bounds, parts) && -TWO_TO_31 <= epoch < TWO_TO_31
    ensures Plan(parts, bounds, offsets, StampAll(parts, first, epoch), epoch)
    ensures offsets[0] == first && offsets[|parts|] == first + Records(AsBatches(parts))
  {
    offsets := OffsetsOf(parts, first);
    OffsetEnds(parts, first);
    var stamped := StampAll(parts, first, epoch);
    forall i | 0 <= i < |parts|
      ensures |stamped[i]| == |parts[i]| && PlanAt(parts, bounds[i], offsets, stamped, epoch, i)
    {
      PlanOne(parts, bounds, first, epoch, i);
    }
  }

  /** The offset at which each part starts, and the one after the last. */
  ghost function OffsetsOf(parts: seq<seq<Byte>>, first: nat): (offsets: seq<nat>)
    ensures |offsets| == |parts| + 1
    ensures forall i :: 0 <= i <= |parts| ==> offsets[i] == OffsetOf(AsBatches(parts), first, i)
  {
    seq(|parts| + 1, i requires 0 <= i <= |parts| => OffsetOf(AsBatches(parts), first, i))
  }

  lemma {:induction false} OffsetEnds(parts: seq<seq<Byte>>, first: nat)
    ensures OffsetOf(AsBatches(parts), first, 0) == first
    ensures OffsetOf(AsBatches(parts), first, |parts|) == first + Records(AsBatches(parts))
  {
    var data := AsBatches(parts);
    assert data[..|parts|] == data && data[..0] == [];
  }

  /** Stamps the parts in place, until an offset would overflow. */
  method StampParts(buf: array<Byte>, bounds: seq<Bounds>, first: nat, epoch: int, ghost parts: seq<seq<Byte>>,
                    ghost stamped: seq<seq<Byte>>, ghost offsets: seq<nat>)
    returns (last: nat, ok: bool)
    requires Plan(parts, bounds, offsets, stamped, epoch) && offsets[0] == first <= MAX_OFFSET && buf[..] == Join(parts)
    modifies buf
    ensures ok <==> offsets[|parts|] <= MAX_OFFSET
    ensures ok ==> buf[..] == Join(stamped) && last == offsets[|parts|]
  {
    last := first;
    var i := 0;
    ReplacedNone(parts, stamped);
    while i < |bounds|
      invariant 0 <= i <= |bounds| && last == offsets[i] <= MAX_OFFSET && ReplacedUpTo(buf[..], parts, stamped, i)
    {
      assert PlanAt(parts, bounds[i], offsets, stamped, epoch, i);
      StampNext(buf, bounds[i].offset, last, epoch, parts, stamped, i);
      var delta := bounds[i].lastOffsetDelta + 1;
      if last > MAX_OFFSET - delta { return last, false; }
      last := last + delta;
      i := i + 1;
    }
    ReplacedAll(buf[..], parts, stamped);
    ok := true;
  }

  /**
   The leader's stamped copy of a scanned buffer: consecutive offsets from `first` on. Fails
   exactly when an offset would overflow.
   */
  method StampRaw(d: seq<Byte>, bounds: seq<Bounds>, first: nat, epoch: int, ghost parts: seq<seq<Byte>>)
    returns (buf: array<Byte>, total: nat, ok: bool)
    requires d == Join(parts) && Describe(bounds, parts)
    requires -TWO_TO_31 <= epoch < TWO_TO_31 && first <= MAX_OFFSET
    ensures ok <==> first + Records(AsBatches(parts)) <= MAX_OFFSET
    ensures ok ==> fresh(buf) && buf[..] == Join(StampAll(parts, first, epoch)) && total == Records(AsBatches(parts))
  {
    buf := new Byte[|d|](i requires 0 <= i < |d| => d[i]);
    assert buf[..] == d;
    ghost var offsets := PlanOf(parts, bounds, first, epoch);
    var last;
    last, ok := StampParts(buf, bounds, first, epoch, parts, StampAll(parts, first, epoch), offsets);
    total := if ok then last - first else 0;
  }

  // ----- Recovery -----

  datatype Found = Found(size: nat, records: nat)

  /** The batch that recovery finds at the start of `h`: complete, of the right format, checksum intact. */
  function RecoverOne(h: seq<Byte>, crc: Checksum): (r: Option<Found>)
    ensures r.Some? ==> 0 < r.value.size <= |h|
  {
    if |h| < RECORD_BATCH_OVERHEAD then None
    else
      var size := 12 + At(h, 8, 4);
      if size > |h| || size < 21 || h[16] != 2 || crc(h[21..size]) != At(h, 17, 4) then None
      else Some(Found(size, At(h, 23, 4) + 1))
  }

  type Finder = seq<Byte> -> Option<Found>

  function Finding(crc: Checksum): Finder { h => RecoverOne(h, crc) }

  datatype Extent = Extent(size: nat, next: nat)

  /** Recovery from position `pos` on, with `next` the offset to continue at: it stops where nothing is found. */
  function RecoverFrom(find: Finder, d: seq<Byte>, pos: nat, next: nat): (r: Extent)
    requires pos <= |d|
    ensures pos <= r.size <= |d|
    decreases |d| - pos
  {
    if pos == |d| then Extent(pos, next)
    else
      var found := find(d[pos..]);
      if found.None? || !(0 < found.value.size <= |d| - pos) then Extent(pos, next)
      else RecoverFrom(find, d, pos + found.value.size, next + found.value.records)
  }

  lemma {:induction false} StepFrom(find: Finder, d: seq<Byte>, pos: nat, next: nat, found: Found)
    requires pos < |d| && find(d[pos..]) == Some(found) && 0 < found.size <= |d| - pos
    ensures RecoverFrom(find, d, pos, next) == RecoverFrom(find, d, pos + found.size, next + found.records)
  {
  }

  lemma {:induction false} StopsFrom(find: Finder, d: seq<Byte>, pos: nat, next: nat)
    requires pos <= |d| && find(d[pos..]).None?
    ensures RecoverFrom(find, d, pos, next) == Extent(pos, next)
  {
  }

  /** What recovery from `size` on gives is what it gives from the start. */
  ghost predicate Recovering(find: Finder, d: seq<Byte>, size: nat, next: nat, baseOffset: nat) {
    size <= |d| && RecoverFrom(find, d, size, next) == RecoverFrom(find, d, 0, baseOffset)
  }

  lemma {:induction false} RecoverStep(find: Finder, d: seq<Byte>, size: nat, next: nat, baseOffset: nat)
    requires Recovering(find, d, size, next, baseOffset) && size < |d|
    ensures var found := find(d[size..]);
            && (found.None? ==> RecoverFrom(find, d, 0, baseOffset) == Extent(size, next))
            && (found.Some? && 0 < found.value.size <= |d| - size ==>
                  Recovering(find, d, size + found.value.size, next + found.value.records, baseOffset))
  {
  }

  method Recover(d: seq<Byte>, baseOffset: nat, crc: Checksum) returns (size: nat, next: nat)
    ensures Extent(size, next) == RecoverFrom(Finding(crc), d, 0, baseOffset)
  {
    size, next := 0, baseOffset;
    ghost var find := Finding(crc);
    while size < |d|
      invariant Recovering(find, d, size, next, baseOffset)
      decreases |d| - size
    {
      var found := RecoverOne(d[size..], crc);
      assert found == find(d[size..]);
      RecoverStep(find, d, size, next, baseOffset);
      if found.None? { return; }
      next := next + found.value.records;
      size := size + found.value.size;
    }
  }

  /** Up to the end of `d`, batch `k` is found from `ends[k]` to `ends[k + 1]`, and not when it is cut. */
  ghost predicate Chain(find: Finder, d: seq<Byte>, ends: seq<nat>, offsets: seq<nat>) {
    && |ends| == |offsets| > 0
    && forall k :: 0 <= k < |ends| - 1 ==> Link(find, d, ends, offsets, k)
  }

  ghost predicate Link(find: Finder, d: seq<Byte>, ends: seq<nat>, offsets: seq<nat>, k: nat)
    requires k + 1 < |ends| == |offsets|
  {
    && ends[k] < ends[k + 1] && offsets[k] <= offsets[k + 1]
    && (ends[k] < |d| ==>
          find(d[ends[k]..]) == if ends[k + 1] <= |d|
                                then Some(Found(ends[k + 1] - ends[k], offsets[k + 1] - offsets[k])) else None)
  }

  lemma {:induction false} StopsInChain(find: Finder, d: seq<Byte>, ends: seq<nat>, offsets: seq<nat>, k: nat)
    returns (n: nat)
    requires Chain(find, d, ends, offsets) && k < |ends| && ends[k] <= |d| <= ends[|ends| - 1]
    ensures n < |ends| && ends[n] <= |d| && (n + 1 < |ends| ==> ends[n + 1] > |d|)
    ensures RecoverFrom(find, d, ends[k], offsets[k]) == Extent(ends[n], offsets[n])
    decreases |ends| - k
  {
    n := k;
    if k + 1 < |ends| {
      assert Link(find, d, ends, offsets, k);
      if ends[k + 1] <= |d| { n := StopsInChain(find, d, ends, offsets, k + 1); }
    }
  }

  /** Where a batch starts in a file, a prefix of the rest of the file has it if it has all of its bytes. */
  lemma {:induction false} TornHead(b: seq<Byte>, h: seq<Byte>, f: seq<Byte>, crc: Checksum)
    requires IsBatch(b, crc) && b <= f && h <= f
    ensures RecoverOne(h, crc) == if |b| <= |h| then Some(Found(|b|, AsBatch(b).count)) else None
  {
    SameHeaders(b, f);
    if |h| >= RECORD_BATCH_OVERHEAD { SameHeaders(h, f); }
    if |h| >= |b| { assert h[21..|b|] == b[21..|b|]; }
  }

  /** Where the next batch should start, recovery finds it if all of its bytes are there. */
  lemma {:induction false} TornBatch(d: seq<Byte>, parts: seq<seq<Byte>>, k: nat, crc: Checksum)
    requires d <= Join(parts) && k < |parts| && IsBatch(parts[k], crc) && |Join(parts[..k])| <= |d|
    ensures |Join(parts[..k + 1])| == |Join(parts[..k])| + |parts[k]|
    ensures RecoverOne(d[|Join(parts[..k])|..], crc)
         == if |Join(parts[..k + 1])| <= |d| then Some(Found(|parts[k]|, AsBatch(parts[k]).count)) else None
  {
    var pos := |Join(parts[..k])|;
    PartAt(parts, k);
    RestOf(d, Join(parts), pos, parts[k]);
    TornHead(parts[k], d[pos..], Join(parts)[pos..], crc);
  }

  lemma {:induction false} RestOf(d: seq<Byte>, f: seq<Byte>, pos: nat, b: seq<Byte>)
    requires d <= f && pos <= |d| && pos + |b| <= |f| && f[pos..pos + |b|] == b
    ensures b <= f[pos..] && d[pos..] <= f[pos..]
  {
    assert f[pos..][..|b|] == f[pos..pos + |b|];
    assert f[pos..][..|d| - pos] == d[pos..];
  }

  lemma {:induction false} OffsetAfter(parts: seq<seq<Byte>>, first: nat, k: nat)
    requires k < |parts|
    ensures OffsetOf(AsBatches(parts), first, k + 1) == OffsetOf(AsBatches(parts), first, k) + AsBatch(parts[k]).count
  {
    var data := AsBatches(parts);
    assert data[..k + 1][..k] == data[..k];
  }

  ghost function EndsOf(parts: seq<seq<Byte>>): (ends: seq<nat>)
    ensures |ends| == |parts| + 1 && forall k :: 0 <= k <= |parts| ==> ends[k] == |Join(parts[..k])|
  {
    seq(|parts| + 1, k requires 0 <= k <= |parts| => |Join(parts[..k])|)
  }

  lemma {:induction false} TornLink(d: seq<Byte>, crc: Checksum, parts: seq<seq<Byte>>, baseOffset: nat, k: nat)
    requires d <= Join(parts) && k < |parts| && IsBatch(parts[k], crc)
    ensures Link(Finding(crc), d, EndsOf(parts), OffsetsOf(parts, baseOffset), k)
  {
    var ends, offsets, find := EndsOf(parts), OffsetsOf(parts, baseOffset), Finding(crc);
    PartAt(parts, k);
    OffsetAfter(parts, baseOffset, k);
    if ends[k] < |d| {
      TornBatch(d, parts, k, crc);
      assert find(d[ends[k]..]) == RecoverOne(d[ends[k]..], crc);
    }
    MakeLink(find, d, ends, offsets, k, |parts[k]|, AsBatch(parts[k]).count);
  }

  lemma {:induction false} MakeLink(find: Finder, d: seq<Byte>, ends: seq<nat>, offsets: seq<nat>, k: nat,
                                    size: nat, count: nat)
    requires k + 1 < |ends| == |offsets| && size > 0
    requires ends[k + 1] == ends[k] + size && offsets[k + 1] == offsets[k] + count
    requires ends[k] < |d| ==> find(d[ends[k]..]) == if ends[k + 1] <= |d| then Some(Found(size, count)) else None
    ensures Link(find, d, ends, offsets, k)
  {
  }

  /** The batches of a file of which a byte prefix is left form such a chain. */
  lemma {:induction false} TornChain(d: seq<Byte>, crc: Checksum, parts: seq<seq<Byte>>, baseOffset: nat)
    requires AllBatches(parts, crc) && d <= Join(parts)
    ensures Chain(Finding(crc), d, EndsOf(parts), OffsetsOf(parts, baseOffset))
  {
    forall k | 0 <= k < |parts| ensures Link(Finding(crc), d, EndsOf(parts), OffsetsOf(parts, baseOffset), k) {
      assert IsBatch(parts[k], crc);
      TornLink(d, crc, parts, baseOffset, k);
    }
  }

  lemma {:induction false} KeptPrefix(d: seq<Byte>, parts: seq<seq<Byte>>, k: nat, size: nat)
    requires k <= |parts| && size == |Join(parts[..k])| <= |d| && d <= Join(parts)
    ensures d[..size] == Join(parts[..k])
  {
    JoinPrefix(parts, k);
  }

  lemma {:induction false} ChainKeeps(find: Finder, d: seq<Byte>, parts: seq<seq<Byte>>, baseOffset: nat)
    returns (k: nat)
    requires Chain(find, d, EndsOf(parts), OffsetsOf(parts, baseOffset)) && d <= Join(parts)
    ensures k <= |parts| && |Join(parts[..k])| <= |d| && (k < |parts| ==> |Join(parts[..k + 1])| > |d|)
    ensures RecoverFrom(find, d, 0, baseOffset)
         == Extent(|Join(parts[..k])|, OffsetOf(AsBatches(parts), baseOffset, k))
  {
    assert parts[..0] == [] && parts[..|parts|] == parts;
    OffsetEnds(parts, baseOffset);
    k := StopsInChain(find, d, EndsOf(parts), OffsetsOf(parts, baseOffset), 0);
  }

  /**
   From any byte prefix of a file of valid batches, recovery keeps exactly the batches that are
   wholly there, and continues after their last offset.
   */
  lemma {:induction false} RecoversWhole(d: seq<Byte>, baseOffset: nat, crc: Checksum, parts: seq<seq<Byte>>)
    returns (k: nat)
    requires AllBatches(parts, crc) && d <= Join(parts)
    ensures var r := RecoverFrom(Finding(crc), d, 0, baseOffset);
            && k <= |parts| && r.size == |Join(parts[..k])| && d[..r.size] == Join(parts[..k])
            && (k < |parts| ==> |Join(parts[..k + 1])| > |d|)
            && r.next == OffsetOf(AsBatches(parts), baseOffset, k)
  {
    TornChain(d, crc, parts, baseOffset);
    k := ChainKeeps(Finding(crc), d, parts, baseOffset);
    KeptPrefix(d, parts, k, |Join(parts[..k])|);
  }

  // ----- Files with damaged bytes -----

  /** A complete batch of `n` bytes starts at `pos`: its length, format and checksum are right. */
  ghost predicate IntactAt(d: seq<Byte>, pos: nat, n: nat, crc: Checksum) {
    && pos + RECORD_BATCH_OVERHEAD <= |d| && 21 <= n && pos + n <= |d|
    && At(d, pos + 8, 4) == n - 12 && d[pos + 16] == 2 && At(d, pos + 17, 4) == crc(d[pos + 21..pos + n])
  }

  lemma {:induction false} FieldBehind(d: seq<Byte>, pos: nat, i: nat, width: nat)
    requires pos + i + width <= |d|
    ensures At(d[pos..], i, width) == At(d, pos + i, width)
  {
    assert d[pos..][i..i + width] == d[pos + i..pos + i + width];
  }

  /** How many records the header at `pos` counts. */
  ghost function CountAt(d: seq<Byte>, pos: nat): nat {
    if pos + 27 <= |d| then At(d, pos + 23, 4) + 1 else 0
  }

  /** Recovery finds a batch exactly where an intact one starts. */
  lemma {:induction false} FindsIntact(d: seq<Byte>, pos: nat, n: nat, crc: Checksum)
    requires pos <= |d|
    ensures var found := RecoverOne(d[pos..], crc);
            && (found.Some? && found.value.size == n <==> IntactAt(d, pos, n, crc))
            && (IntactAt(d, pos, n, crc) ==> found == Some(Found(n, CountAt(d, pos))))
  {
    if pos + RECORD_BATCH_OVERHEAD <= |d| {
      FieldBehind(d, pos, 8, 4);
      FieldBehind(d, pos, 17, 4);
      FieldBehind(d, pos, 23, 4);
      if 21 <= n && pos + n <= |d| { assert d[pos..][21..n] == d[pos + 21..pos + n]; }
    }
  }

  /** The records of the batches that start at all but the last of these positions. */
  ghost function RecordsAt(d: seq<Byte>, ends: seq<nat>): nat {
    if |ends| <= 1 then 0 else CountAt(d, ends[0]) + RecordsAt(d, ends[1..])
  }

  /** Intact batches back to back, from the first to the last of these positions. */
  ghost predicate IntactRun(d: seq<Byte>, ends: seq<nat>, crc: Checksum) {
    |ends| > 0
    && forall k :: 0 <= k < |ends| - 1 ==> ends[k] <= ends[k + 1] && IntactAt(d, ends[k], ends[k + 1] - ends[k], crc)
  }

  lemma {:induction false} OneMoreIntact(d: seq<Byte>, pos: nat, ends: seq<nat>, crc: Checksum)
    requires IntactRun(d, ends, crc) && pos <= ends[0] && IntactAt(d, pos, ends[0] - pos, crc)
    ensures IntactRun(d, [pos] + ends, crc)
    ensures RecordsAt(d, [pos] + ends) == CountAt(d, pos) + RecordsAt(d, ends)
  {
    var all := [pos] + ends;
    assert all[1..] == ends;
    forall k | 0 <= k < |all| - 1 ensures all[k] <= all[k + 1] && IntactAt(d, all[k], all[k + 1] - all[k], crc) {
      assert k > 0 ==> all[k] == ends[k - 1] && all[k + 1] == ends[k];
    }
  }

  ghost predicate NoneAt(d: seq<Byte>, pos: nat, crc: Checksum) { forall n: nat :: !IntactAt(d, pos, n, crc) }

  /** What `find` finds at a position is the intact batch there. */
  ghost predicate FindsAt(find: Finder, d: seq<Byte>, pos: nat, crc: Checksum)
    requires pos <= |d|
  {
    match find(d[pos..])
    case None => NoneAt(d, pos, crc)
    case Some(f) => f.size > 0 && IntactAt(d, pos, f.size, crc) && f.records == CountAt(d, pos)
  }

  /** Recovery from `pos` on went along these positions, to `r`. */
  ghost predicate Along(d: seq<Byte>, pos: nat, next: nat, ends: seq<nat>, r: Extent, crc: Checksum) {
    && IntactRun(d, ends, crc) && ends[0] == pos && ends[|ends| - 1] == r.size
    && r.next == next + RecordsAt(d, ends) && NoneAt(d, r.size, crc)
  }

  lemma {:induction false} AlongStep(d: seq<Byte>, pos: nat, next: nat, n: nat, ends: seq<nat>, r: Extent,
                                     crc: Checksum)
    requires IntactAt(d, pos, n, crc) && Along(d, pos + n, next + CountAt(d, pos), ends, r, crc)
    ensures Along(d, pos, next, [pos] + ends, r, crc)
  {
    OneMoreIntact(d, pos, ends, crc);
  }

  lemma {:induction false} RecoveredFrom(find: Finder, d: seq<Byte>, pos: nat, next: nat, crc: Checksum)
    returns (ends: seq<nat>)
    requires pos <= |d|
    requires forall p: nat :: p <= |d| ==> FindsAt(find, d, p, crc)
    ensures Along(d, pos, next, ends, RecoverFrom(find, d, pos, next), crc)
    decreases |d| - pos
  {
    assert FindsAt(find, d, pos, crc);
    var found := find(d[pos..]);
    if found.None? {
      StopsFrom(find, d, pos, next);
      ends := [pos];
    } else {
      StepFrom(find, d, pos, next, found.value);
      var rest := RecoveredFrom(find, d, pos + found.value.size, next + found.value.records, crc);
      AlongStep(d, pos, next, found.value.size, rest, RecoverFrom(find, d, pos, next), crc);
      ends := [pos] + rest;
    }
  }

  lemma {:induction false} FindingIsExact(d: seq<Byte>, pos: nat, crc: Checksum)
    requires pos <= |d|
    ensures FindsAt(Finding(crc), d, pos, crc)
  {
    var found := RecoverOne(d[pos..], crc);
    assert Finding(crc)(d[pos..]) == found;
    forall n: nat ensures IntactAt(d, pos, n, crc) <==> found.Some? && found.value.size == n {
      FindsIntact(d, pos, n, crc);
    }
    if found.Some? { FindsIntact(d, pos, found.value.size, crc); }
  }

  /**
   From any file recovery keeps intact batches back to back, up to the first place where none
   starts, and continues after their records.
   */
  lemma {:induction false} RecoveredIs(d: seq<Byte>, baseOffset: nat, crc: Checksum) returns (ends: seq<nat>)
    ensures Along(d, 0, baseOffset, ends, RecoverFrom(Finding(crc), d, 0, baseOffset), crc)
  {
    forall p: nat | p <= |d| ensures FindsAt(Finding(crc), d, p, crc) { FindingIsExact(d, p, crc); }
    ends := RecoveredFrom(Finding(crc), d, 0, baseOffset, crc);
  }

  lemma {:induction false} BatchIsFound(b: seq<Byte>, h: seq<Byte>, crc: Checksum)
    requires IsBatch(b, crc) && b <= h
    ensures RecoverOne(h, crc) == Some(Found(|b|, AsBatch(b).count))
  {
    SameHeaders(b, h);
    assert h[21..|b|] == b[21..|b|];
  }

  /** Positions and offsets between which recovery just moves on. */
  ghost predicate MovesOn(find: Finder, d: seq<Byte>, ends: seq<nat>, offsets: seq<nat>, k: nat)
    requires k + 1 < |ends| == |offsets|
  {
    && ends[k] <= |d| && ends[k + 1] <= |d|
    && RecoverFrom(find, d, ends[k], offsets[k]) == RecoverFrom(find, d, ends[k + 1], offsets[k + 1])
  }

  lemma {:induction false} MovesAlong(find: Finder, d: seq<Byte>, ends: seq<nat>, offsets: seq<nat>, k: nat)
    requires k < |ends| == |offsets| && ends[0] <= |d|
    requires forall i :: 0 <= i < |ends| - 1 ==> MovesOn(find, d, ends, offsets, i)
    ensures ends[k] <= |d| && RecoverFrom(find, d, ends[0], offsets[0]) == RecoverFrom(find, d, ends[k], offsets[k])
  {
    if k > 0 {
      MovesAlong(find, d, ends, offsets, k - 1);
      assert MovesOn(find, d, ends, offsets, k - 1);
    }
  }

  lemma {:induction false} SkipsBatch(d: seq<Byte>, parts: seq<seq<Byte>>, k: nat, baseOffset: nat, crc: Checksum)
    requires Join(parts) <= d && AllBatches(parts, crc) && k < |parts|
    ensures MovesOn(Finding(crc), d, EndsOf(parts), OffsetsOf(parts, baseOffset), k)
  {
    var ends, offsets, find := EndsOf(parts), OffsetsOf(parts, baseOffset), Finding(crc);
    NextBatch(d, parts, k, crc);
    assert IsBatch(parts[k], crc);
    BatchIsFound(parts[k], d[ends[k]..], crc);
    assert find(d[ends[k]..]) == RecoverOne(d[ends[k]..], crc);
    OffsetAfter(parts, baseOffset, k);
    MakeMove(find, d, ends, offsets, k, Found(|parts[k]|, AsBatch(parts[k]).count));
  }

  lemma {:induction false} MakeMove(find: Finder, d: seq<Byte>, ends: seq<nat>, offsets: seq<nat>, k: nat, found: Found)
    requires k + 1 < |ends| == |offsets| && ends[k] < |d| && find(d[ends[k]..]) == Some(found) && found.size > 0
    requires ends[k + 1] == ends[k] + found.size <= |d| && offsets[k + 1] == offsets[k] + found.records
    ensures MovesOn(find, d, ends, offsets, k)
  {
    StepFrom(find, d, ends[k], offsets[k], found);
  }

  lemma {:induction false} SkipsBatches(d: seq<Byte>, parts: seq<seq<Byte>>, baseOffset: nat, crc: Checksum)
    requires Join(parts) <= d && AllBatches(parts, crc)
    ensures RecoverFrom(Finding(crc), d, 0, baseOffset)
         == RecoverFrom(Finding(crc), d, |Join(parts)|, OffsetOf(AsBatches(parts), baseOffset, |parts|))
  {
    var ends, offsets := EndsOf(parts), OffsetsOf(parts, baseOffset);
    forall k | 0 <= k < |parts| ensures MovesOn(Finding(crc), d, ends, offsets, k) {
      SkipsBatch(d, parts, k, baseOffset, crc);
    }
    assert parts[..0] == [] && parts[..|parts|] == parts;
    OffsetEnds(parts, baseOffset);
    MovesAlong(Finding(crc), d, ends, offsets, |parts|);
  }

  /** Valid batches in front of damaged bytes are kept, and nothing else. */
  lemma {:induction false} StopsAtDamage(d: seq<Byte>, parts: seq<seq<Byte>>, baseOffset: nat, crc: Checksum)
    requires Join(parts) <= d && AllBatches(parts, crc) && NoneAt(d, |Join(parts)|, crc)
    ensures RecoverFrom(Finding(crc), d, 0, baseOffset)
         == Extent(|Join(parts)|, OffsetOf(AsBatches(parts), baseOffset, |parts|))
  {
    SkipsBatches(d, parts, baseOffset, crc);
    FindingIsExact(d, |Join(parts)|, crc);
    StopsFrom(Finding(crc), d, |Join(parts)|, OffsetOf(AsBatches(parts), baseOffset, |parts|));
  }
}
