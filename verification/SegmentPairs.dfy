/**
 A segment with its index: appending, rebuilding the index, and reading from an offset.
 */
module SegmentPairs {
  import opened Batches
  import opened PartitionModel
  import opened Segments

  /** The index slot of batch `m`. */
  ghost function SlotFor(bs: seq<Batch>, base: nat, m: nat): Slot
    requires m < |bs|
  {
    Slot((bs[m].base - base) % TWO_TO_32, Bytes(bs[..m]))
  }

  /** The slots index the batches numbered by `marks`, the first batch among them. */
  ghost predicate Marked(bs: seq<Batch>, base: nat, slots: seq<Slot>, marks: seq<nat>) {
    && |marks| == |slots|
    && (forall i :: 0 <= i < |marks| ==> marks[i] < |bs| && slots[i] == SlotFor(bs, base, marks[i]))
    && (|bs| > 0 ==> |marks| > 0 && marks[0] == 0)
  }

  lemma {:induction false} MarkedSnoc(bs: seq<Batch>, base: nat, slots: seq<Slot>, marks: seq<nat>, m: nat)
    requires m < |bs| && |marks| == |slots|
    requires forall i :: 0 <= i < |marks| ==> marks[i] < |bs| && slots[i] == SlotFor(bs, base, marks[i])
    requires |marks| > 0 ==> marks[0] == 0
    requires |marks| == 0 ==> m == 0
    ensures Marked(bs, base, slots + [SlotFor(bs, base, m)], marks + [m])
  {
  }

  /** Indexed batches and bytes since the last of them. */
  datatype Progress = Progress(marks: seq<nat>, since: nat) {
    /** Batch `n` is written at the end: the first batch and every filled interval get a slot. */
    function Next(n: nat, size: nat, interval: nat): Progress {
      if n == 0 || since + size >= interval then Progress(marks + [n], 0) else Progress(marks, since + size)
    }
  }

  /** What an index rebuild indexes. */
  function Rebuilt(bs: seq<Batch>, interval: nat): Progress {
    if |bs| == 0 then Progress([], 0)
    else
      var n := |bs| - 1;
      Rebuilt(bs[..n], interval).Next(n, bs[n].size, interval)
  }

  lemma {:induction false} RebuiltGrows(bs: seq<Batch>, done: seq<Batch>, interval: nat)
    requires done <= bs
    ensures |Rebuilt(done, interval).marks| <= |Rebuilt(bs, interval).marks|
    decreases |bs|
  {
    if |done| == |bs| {
      assert done == bs;
    } else {
      RebuiltGrows(bs[..|bs| - 1], done, interval);
    }
  }

  /** A rebuilt index has at most one slot per interval, plus the first. */
  lemma {:induction false} RebuiltBound(bs: seq<Batch>, interval: nat)
    ensures var r := Rebuilt(bs, interval);
            |bs| > 0 ==> |r.marks| > 0 && (|r.marks| - 1) * interval + r.since <= Bytes(bs)
  {
    if |bs| > 1 {
      RebuiltBound(bs[..|bs| - 1], interval);
      var r := Rebuilt(bs[..|bs| - 1], interval);
      assert |r.marks| * interval == (|r.marks| - 1) * interval + interval;
    }
  }

  lemma {:induction false} LessByProduct(n: nat, m: nat, d: nat)
    requires n * d < m * d
    ensures n < m
  {
  }

  lemma {:induction false} AtMostQuotient(n: nat, d: nat, b: nat)
    requires d > 0 && n * d <= b
    ensures n <= b / d
  {
    assert b < (b / d + 1) * d;
    LessByProduct(n, b / d + 1, d);
  }

  /** A rebuild cannot fail when the index has a slot for every interval of the stored bytes, and one more. */
  lemma {:induction false} RebuiltFits(bs: seq<Batch>, interval: nat, slots: nat)
    requires interval > 0 && Bytes(bs) / interval + 1 <= slots
    ensures |Rebuilt(bs, interval).marks| <= slots
  {
    if |bs| > 0 {
      RebuiltBound(bs, interval);
      AtMostQuotient(|Rebuilt(bs, interval).marks| - 1, interval, Bytes(bs));
    }
  }

  lemma {:induction false} HitEnds(slots: seq<Slot>, base: nat, offset: nat)
    requires |slots| > 0 && base <= offset < base + TWO_TO_32
    ensures var r := Hit(slots, base, offset);
            && (r == 0 || base + slots[r].relOffset <= offset)
            && (base + slots[r].relOffset <= offset && r + 1 < |slots| ==> offset < base + slots[r + 1].relOffset)
  {
    BisectEnds(slots, offset - base, 0, |slots| - 1, 0);
  }

  /** In a segment that spans at most 2^32 offsets, the lookup ends at the last indexed batch at or below. */
  lemma {:induction false} HitBelow(bs: seq<Batch>, base: nat, slots: seq<Slot>, marks: seq<nat>, offset: nat)
    requires Contiguous(bs, base) && |bs| > 0 && Marked(bs, base, slots, marks)
    requires base <= offset < EndOffset(bs, base) <= base + TWO_TO_32
    ensures var r := Hit(slots, base, offset);
            && bs[marks[r]].base <= offset
            && (r + 1 < |marks| ==> offset < bs[marks[r + 1]].base)
  {
    HitEnds(slots, base, offset);
    HitMarked(bs, base, slots, marks, offset, Hit(slots, base, offset));
  }

  lemma {:induction false} HitMarked(bs: seq<Batch>, base: nat, slots: seq<Slot>, marks: seq<nat>, offset: nat, r: nat)
    requires Contiguous(bs, base) && |bs| > 0 && Marked(bs, base, slots, marks) && r < |marks|
    requires base <= offset < EndOffset(bs, base) <= base + TWO_TO_32
    requires r == 0 || base + slots[r].relOffset <= offset
    requires base + slots[r].relOffset <= offset && r + 1 < |slots| ==> offset < base + slots[r + 1].relOffset
    ensures bs[marks[r]].base <= offset
    ensures r + 1 < |marks| ==> offset < bs[marks[r + 1]].base
  {
    SlotExact(bs, base, marks[r]);
    if r + 1 < |marks| { SlotExact(bs, base, marks[r + 1]); }
  }

  lemma {:induction false} SlotExact(bs: seq<Batch>, base: nat, m: nat)
    requires Contiguous(bs, base) && m < |bs| && EndOffset(bs, base) <= base + TWO_TO_32
    ensures SlotFor(bs, base, m).relOffset == bs[m].base - base
    ensures m == 0 ==> bs[m].base == base
  {
    EndOffsetMonotone(bs, base, 0, m);
    EndOffsetMonotone(bs, base, m, |bs|);
    assert bs[..|bs|] == bs;
  }

  /** Slots are written in the order of their batches. */
  ghost predicate Ascending(marks: seq<nat>) { forall i :: 0 <= i < |marks| ==> marks[i] <= marks[|marks| - 1] }

  lemma {:induction false} RebuiltAscends(bs: seq<Batch>, interval: nat)
    ensures Ascending(Rebuilt(bs, interval).marks)
    ensures forall i :: 0 <= i < |Rebuilt(bs, interval).marks| ==> Rebuilt(bs, interval).marks[i] < |bs|
  {
    if |bs| > 0 { RebuiltAscends(bs[..|bs| - 1], interval); }
  }

  /** With a target no stored offset exceeds, the bisection ends at the last slot. */
  lemma {:induction false} BisectLast(s: seq<Slot>, rel: nat, low: nat, best: nat)
    requires best < |s| && low <= |s| && best == (if low == 0 then 0 else low - 1)
    requires forall i :: 0 <= i < |s| ==> s[i].relOffset <= rel
    ensures Bisect(s, rel, low, |s| - 1, best) == |s| - 1
    decreases |s| - low
  {
    if low < |s| {
      BisectLast(s, rel, (low + |s| - 1) / 2 + 1, (low + |s| - 1) / 2);
    }
  }

  /** No lookup of a stored offset starts past it. */
  ghost predicate NeverPast(bs: seq<Batch>, base: nat, slots: seq<Slot>, marks: seq<nat>)
    requires Marked(bs, base, slots, marks) && |bs| > 0
  {
    forall offset :: base <= offset < EndOffset(bs, base) ==> bs[marks[Hit(slots, base, offset)]].base <= offset
  }

  lemma {:induction false} NearHit(bs: seq<Batch>, base: nat, slots: seq<Slot>, marks: seq<nat>, offset: nat)
    requires Contiguous(bs, base) && |bs| > 0 && Marked(bs, base, slots, marks) && offset >= base
    requires bs[marks[Hit(slots, base, offset)]].base < base + TWO_TO_32
    ensures bs[marks[Hit(slots, base, offset)]].base <= offset
  {
    var r := Hit(slots, base, offset);
    BisectEnds(slots, (offset - base) % TWO_TO_32, 0, |slots| - 1, 0);
    EndOffsetMonotone(bs, base, 0, marks[r]);
    assert slots[r] == SlotFor(bs, base, marks[r]);
    assert bs[..0] == [];
  }

  lemma {:induction false} FarHit(slots: seq<Slot>, base: nat)
    requires |slots| > 0 && forall i :: 0 <= i < |slots| ==> slots[i].relOffset < TWO_TO_32
    ensures Hit(slots, base, base + TWO_TO_32 - 1) == |slots| - 1
  {
    BisectLast(slots, TWO_TO_32 - 1, 0, 0);
  }

  lemma {:induction false} FarMiss(bs: seq<Batch>, base: nat, slots: seq<Slot>, marks: seq<nat>)
    requires Contiguous(bs, base) && |bs| > 0 && Marked(bs, base, slots, marks)
    requires bs[marks[|marks| - 1]].base >= base + TWO_TO_32
    ensures !NeverPast(bs, base, slots, marks)
  {
    var last, offset := marks[|marks| - 1], base + TWO_TO_32 - 1;
    forall i | 0 <= i < |slots| ensures slots[i].relOffset < TWO_TO_32 {
      assert slots[i] == SlotFor(bs, base, marks[i]);
    }
    FarHit(slots, base);
    EndOffsetMonotone(bs, base, last, |bs|);
    assert bs[..|bs|] == bs;
  }

  /**
   Stored offsets are cut to 32 bits. Lookups start at or below every offset of a segment
   exactly when its last indexed batch starts less than 2^32 offsets into it.
   */
  lemma {:induction false} LookupIffNear(bs: seq<Batch>, base: nat, slots: seq<Slot>, marks: seq<nat>)
    requires Contiguous(bs, base) && |bs| > 0 && Marked(bs, base, slots, marks) && Ascending(marks)
    ensures NeverPast(bs, base, slots, marks) <==> bs[marks[|marks| - 1]].base < base + TWO_TO_32
  {
    if bs[marks[|marks| - 1]].base < base + TWO_TO_32 {
      forall offset | base <= offset < EndOffset(bs, base)
        ensures bs[marks[Hit(slots, base, offset)]].base <= offset
      {
        EndOffsetMonotone(bs, base, marks[Hit(slots, base, offset)], marks[|marks| - 1]);
        NearHit(bs, base, slots, marks, offset);
      }
    } else {
      FarMiss(bs, base, slots, marks);
    }
  }

  lemma {:induction false} BytesSnoc(bs: seq<Batch>, m: nat, n: nat)
    requires m <= n < |bs|
    ensures Bytes(bs[m..n + 1]) == Bytes(bs[m..n]) + bs[n].size
  {
    assert bs[m..n + 1][..n - m] == bs[m..n];
  }

  /** What is counted since the last slot are the bytes behind its batch, and they do not fill an interval. */
  lemma {:induction false} CountedSince(bs: seq<Batch>, interval: nat)
    requires |bs| > 0 && interval > 0
    ensures var r := Rebuilt(bs, interval);
            && |r.marks| > 0 && r.marks[|r.marks| - 1] < |bs|
            && r.since == Bytes(bs[r.marks[|r.marks| - 1] + 1..]) < interval
  {
    var n := |bs| - 1;
    if n > 0 {
      CountedSince(bs[..n], interval);
      var m := Rebuilt(bs[..n], interval).marks[|Rebuilt(bs[..n], interval).marks| - 1];
      assert bs[..n][m + 1..] == bs[m + 1..n] && bs[m + 1..n + 1] == bs[m + 1..];
      BytesSnoc(bs, m + 1, n);
    }
    assert bs[n + 1..] == [];
  }

  /** So from the slot before a batch to the batch there is always less than an interval to scan. */
  lemma {:induction false} ScanIsShort(bs: seq<Batch>, interval: nat, i: nat) returns (j: nat)
    requires i < |bs| && interval > 0
    ensures var marks := Rebuilt(bs, interval).marks;
            j < |marks| && marks[j] <= i && Bytes(bs[marks[j] + 1..i + 1]) < interval
  {
    var n := |bs| - 1;
    if i == n {
      CountedSince(bs, interval);
      j := |Rebuilt(bs, interval).marks| - 1;
      assert bs[Rebuilt(bs, interval).marks[j] + 1..n + 1] == bs[Rebuilt(bs, interval).marks[j] + 1..];
    } else {
      j := ScanIsShort(bs[..n], interval, i);
      var m := Rebuilt(bs[..n], interval).marks[j];
      assert Rebuilt(bs[..n], interval).marks <= Rebuilt(bs, interval).marks;
      assert bs[..n][m + 1..i + 1] == bs[m + 1..i + 1];
    }
  }

  /** Where every batch fills an interval, every batch is indexed. */
  lemma {:induction false} AllIndexed(bs: seq<Batch>, interval: nat)
    requires forall i :: 0 <= i < |bs| ==> bs[i].size >= interval
    ensures Rebuilt(bs, interval).marks == seq(|bs|, i => i)
  {
    if |bs| > 0 { AllIndexed(bs[..|bs| - 1], interval); }
  }

  /** Four batches of as many records as a batch can have, all indexed: some lookup starts past its offset. */
  lemma {:induction false} WideSegmentMisses(body: seq<Byte>)
    returns (bs: seq<Batch>, slots: seq<Slot>, marks: seq<nat>)
    ensures Contiguous(bs, 0) && |bs| > 0 && Marked(bs, 0, slots, marks) && Ascending(marks)
    ensures marks == Rebuilt(bs, RECORD_BATCH_OVERHEAD).marks
    ensures forall i :: 0 <= i < |bs| ==> bs[i].count < TWO_TO_31
    ensures !NeverPast(bs, 0, slots, marks)
  {
    var n := TWO_TO_31 - 1;
    bs := [Batch(0, n, 0, 61, body), Batch(n, n, 0, 61, body), Batch(2 * n, n, 0, 61, body),
           Batch(3 * n, n, 0, 61, body)];
    marks := [0, 1, 2, 3];
    slots := [SlotFor(bs, 0, 0), SlotFor(bs, 0, 1), SlotFor(bs, 0, 2), SlotFor(bs, 0, 3)];
    assert bs[..0] == [] && bs[..1] == [bs[0]] && bs[..2] == [bs[0], bs[1]] && bs[..3] == [bs[0], bs[1], bs[2]];
    LookupIffNear(bs, 0, slots, marks);
    AllIndexed(bs, RECORD_BATCH_OVERHEAD);
  }

  class SegmentPair {
    const segment: Segment
    const index: Index
    var bytesSinceIndex: nat
    ghost var marks: seq<nat>

    ghost predicate Valid()
      reads this, segment, index, index.slots
    {
      && segment.Valid() && index.Valid()
      && segment.baseOffset == index.baseOffset
      && Marked(segment.batches, segment.baseOffset, index.Entries(), marks)
    }

    constructor (baseOffset: nat, maxSegmentBytes: nat, maxIndexBytes: nat)
      ensures Valid() && segment.batches == [] && index.count == 0 && bytesSinceIndex == 0 && marks == []
      ensures segment.baseOffset == baseOffset && segment.maxSize == maxSegmentBytes
      ensures index.maxBytes == maxIndexBytes
      ensures fresh(segment) && fresh(index) && fresh(index.slots)
    {
      segment := new Segment(baseOffset, maxSegmentBytes);
      index := new Index(baseOffset, maxIndexBytes);
      bytesSinceIndex := 0;
      marks := [];
    }

    /**
     Counts the bytes of a run just written at `pos` and indexes its first batch when the
     segment was empty or the interval is reached; fails when that slot does not fit.
     */
    method IndexRun(first: nat, pos: nat, size: nat, interval: nat, ghost before: seq<Batch>, ghost all: seq<Batch>)
      returns (ok: bool)
      requires index.Valid() && Marked(before, index.baseOffset, index.Entries(), marks)
      requires before < all && first >= index.baseOffset && (pos == 0 <==> |before| == 0)
      requires Slot((first - index.baseOffset) % TWO_TO_32, pos) == SlotFor(all, index.baseOffset, |before|)
      modifies this, index, index.slots
      ensures index.Valid()
      ensures var next := Progress(old(marks), old(bytesSinceIndex)).Next(|before|, size, interval);
              && ok == (|next.marks| <= index.slots.Length)
              && (ok ==>
                    && Marked(all, index.baseOffset, index.Entries(), marks)
                    && Progress(marks, bytesSinceIndex) == next)
    {
      MarkedAppend(before, all, index.baseOffset, index.Entries(), marks);
      bytesSinceIndex := bytesSinceIndex + size;
      ok := true;
      if pos == 0 || bytesSinceIndex >= interval {
        ok := index.Write(first, pos);
        if ok {
          marks := marks + [|before|];
          bytesSinceIndex := 0;
        }
      }
    }

    /** Appends a run and indexes its first batch when the segment was empty or the interval is reached. */
    method Append(data: seq<Batch>, epoch: int, assign: bool, interval: nat)
      returns (first: nat, total: nat, err: Option<AppendError>)
      requires Valid() && WellFormedData(data) && |data| > 0 && index.count < index.slots.Length
      requires !assign ==> Contiguous(data, segment.nextOffset)
      modifies this, segment, index, index.slots
      ensures Valid()
      ensures err == Some(SegmentFull) <==>
              old(segment.currentSize) > 0 && old(segment.currentSize) + Bytes(data) > segment.maxSize
      ensures err == Some(OffsetOverflow) <==>
              !(old(segment.currentSize) > 0 && old(segment.currentSize) + Bytes(data) > segment.maxSize)
              && old(segment.nextOffset) + Records(data) > MAX_OFFSET
      ensures err.Some? ==> segment.batches == old(segment.batches) && index.count == old(index.count)
      ensures err.None? ==>
                && segment.batches == old(segment.batches)
                                      + (if assign then Stamp(data, old(segment.nextOffset), epoch) else data)
                && first == old(segment.nextOffset) && total == Records(data)
      ensures err.None? ==>
                Progress(marks, bytesSinceIndex)
                == Progress(old(marks), old(bytesSinceIndex)).Next(old(|segment.batches|), Bytes(data), interval)
    {
      ghost var before := segment.batches;
      var pos;
      first, pos, total, err := segment.AppendBatches(data, epoch, assign);
      if err.Some? { return; }
      NextSlot(segment.batches, |before|, segment.baseOffset);
      assert segment.batches[..|before|] == before;
      var ok := IndexRun(first, pos, Bytes(data), interval, before, segment.batches);
    }

    /** Rescans the segment and writes the index anew; fails when the index is too small. */
    method RebuildIndex(interval: nat) returns (ok: bool)
      requires segment.Valid() && index.Valid() && segment.baseOffset == index.baseOffset
      modifies this, index, index.slots
      ensures ok <==> |Rebuilt(segment.batches, interval).marks| <= index.slots.Length
      ensures ok ==> Valid() && Progress(marks, bytesSinceIndex) == Rebuilt(segment.batches, interval)
    {
      index.Reset();
      marks, bytesSinceIndex := [], 0;
      ghost var bs := segment.batches;
      ghost var done: seq<Batch> := [];
      var pos := 0;
      while pos < segment.currentSize
        invariant done <= bs && pos == Bytes(done)
        invariant index.Valid()
        invariant Progress(marks, bytesSinceIndex) == Rebuilt(done, interval)
        invariant Marked(done, segment.baseOffset, index.Entries(), marks)
        decreases |bs| - |done|
      {
        ghost var next := RebuildStep(bs, done, interval, segment.baseOffset);
        var meta := segment.ReadBatchMetaAt(pos);
        ok := IndexRun(meta.value.firstOffset, pos, meta.value.size, interval, done, next);
        if !ok {
          RebuiltGrows(bs, next, interval);
          return;
        }
        pos := pos + meta.value.size;
        done := next;
      }
      assert done == bs[..|done|];
      AllRead(bs, |done|);
      ok := true;
    }

    /** The batch an offset lookup starts scanning from. */
    ghost function ScanStart(offset: nat): (m: nat)
      requires Valid() && offset >= segment.baseOffset && |segment.batches| > 0
      reads this, segment, index, index.slots
      ensures m < |segment.batches|
    {
      marks[Hit(index.Entries(), segment.baseOffset, offset)]
    }

    /** Finds the file position of the batch that holds `offset`: an index lookup, then a scan. */
    method Locate(offset: nat) returns (r: Option<nat>, ghost k: nat)
      requires Valid() && offset >= segment.baseOffset
      ensures r.Some? <==>
              && |segment.batches| > 0 && offset < segment.nextOffset
              && segment.batches[ScanStart(offset)].base <= offset
      ensures r.Some? ==>
                && k < |segment.batches| && r.value == Bytes(segment.batches[..k])
                && segment.batches[k].base <= offset < segment.batches[k].End()
    {
      var found := index.Lookup(offset);
      if |segment.batches| > 0 {
        NotLast(segment.batches, ScanStart(offset), segment.baseOffset);
        assert index.Entries()[Hit(index.Entries(), segment.baseOffset, offset)].position
            == Bytes(segment.batches[..ScanStart(offset)]);
      }
      var meta := segment.ReadBatchMetaAt(found.value);
      if meta.None? { return None, 0; }
      r, k := segment.Scan(found.value, offset, ScanStart(offset));
    }

    /** The byte range of the batches from the one that holds `offset` on; see `Segment.ReadRangeAt`. */
    method ReadFrom(offset: nat, maxBytes: int)
      returns (found: bool, start: nat, end: nat, fetchedUpTo: nat, ghost k: nat, ghost j: nat)
      requires Valid() && offset >= segment.baseOffset
      ensures found ==> offset < segment.nextOffset
      ensures offset < segment.nextOffset <= segment.baseOffset + TWO_TO_32 ==> found
      ensures found ==> Taken(segment.batches, segment.baseOffset, maxBytes, k, j, start, end, fetchedUpTo)
      ensures found ==> segment.batches[k].base <= offset < segment.batches[k].End()
    {
      start, end, fetchedUpTo, j := 0, 0, 0, 0;
      if offset < segment.nextOffset <= segment.baseOffset + TWO_TO_32 {
        HitBelow(segment.batches, segment.baseOffset, index.Entries(), marks, offset);
      }
      var position;
      position, k := Locate(offset);
      found := position.Some?;
      if found {
        start := position.value;
        end, fetchedUpTo, j := segment.ReadRangeAt(start, maxBytes, k);
      }
    }

    /** Cuts the segment after `k` batches and rebuilds its index. */
    method Truncate(position: nat, offset: nat, interval: nat, ghost k: nat) returns (ok: bool)
      requires Valid() && k <= |segment.batches|
      requires position == Bytes(segment.batches[..k])
      requires offset == EndOffset(segment.batches[..k], segment.baseOffset)
      modifies this, segment, index, index.slots
      ensures segment.Valid() && segment.batches == old(segment.batches)[..k]
      ensures ok <==> |Rebuilt(segment.batches, interval).marks| <= index.slots.Length
      ensures ok ==> Valid()
    {
      segment.TruncateAt(position, offset, k);
      ok := RebuildIndex(interval);
    }
  }

  /** The old slots stay right when batches are added, and the first added batch may join them. */
  lemma {:induction false} MarkedAppend(before: seq<Batch>, all: seq<Batch>, base: nat, slots: seq<Slot>,
                                        marks: seq<nat>)
    requires before < all && Marked(before, base, slots, marks)
    ensures |before| > 0 ==> Marked(all, base, slots, marks)
    ensures Marked(all, base, slots + [SlotFor(all, base, |before|)], marks + [|before|])
  {
    assert before == all[..|before|];
    SameSlots(all, |before|, base, slots, marks);
    MarkedSnoc(all, base, slots, marks, |before|);
  }

  lemma {:induction false} NextSlot(bs: seq<Batch>, k: nat, base: nat)
    requires Contiguous(bs, base) && k < |bs|
    ensures EndOffset(bs[..k], base) >= base
    ensures Bytes(bs[..k]) == 0 <==> k == 0
    ensures SlotFor(bs, base, k) == Slot((EndOffset(bs[..k], base) - base) % TWO_TO_32, Bytes(bs[..k]))
  {
    EndOffsetMonotone(bs, base, 0, k);
    BytesMonotone(bs, 0, k);
  }

  lemma {:induction false} SameSlots(all: seq<Batch>, k: nat, base: nat, slots: seq<Slot>, marks: seq<nat>)
    requires k <= |all| && Marked(all[..k], base, slots, marks)
    ensures forall i :: 0 <= i < |marks| ==> marks[i] < k && slots[i] == SlotFor(all, base, marks[i])
  {
    forall i | 0 <= i < |marks| ensures slots[i] == SlotFor(all, base, marks[i]) {
      assert all[..k][..marks[i]] == all[..marks[i]];
    }
  }

  /** One step of an index rebuild. */
  lemma {:induction false} RebuildStep(bs: seq<Batch>, done: seq<Batch>, interval: nat, base: nat)
    returns (next: seq<Batch>)
    requires Contiguous(bs, base) && done <= bs && Bytes(done) < Bytes(bs)
    ensures done < next <= bs && |next| == |done| + 1
    ensures IndexAt(bs, Bytes(done)) == Some(|done|) && (Bytes(done) == 0 <==> |done| == 0)
    ensures var b := bs[|done|];
            && b.base >= base
            && Slot((b.base - base) % TWO_TO_32, Bytes(done)) == SlotFor(next, base, |done|)
            && Bytes(next) == Bytes(done) + b.size
            && Rebuilt(next, interval) == Rebuilt(done, interval).Next(|done|, b.size, interval)
  {
    var i := |done|;
    assert done == bs[..i];
    BatchAt(bs, i, base);
    NextSlot(bs, i, base);
    next := bs[..i + 1];
    assert next[..i] == done;
  }
}
