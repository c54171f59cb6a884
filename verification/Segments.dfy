/**
 Segment files and their sparse offset index.

 A segment holds whole batches back to back; a file position is the number of bytes before
 a batch. The index is a fixed buffer of slots, written in order and searched by bisection.
 */
module Segments {
  import opened Batches
  import opened PartitionModel

  /** Bytes of an index slot: an offset relative to the segment in 32 bits, and a position. */
  const INDEX_ENTRY_SIZE: nat := 12

  // ----- Byte positions -----

  lemma {:induction false} BytesMonotone(bs: seq<Batch>, i: nat, j: nat)
    requires WellFormedData(bs) && i <= j <= |bs|
    ensures Bytes(bs[..i]) + (j - i) <= Bytes(bs[..j])
    decreases j - i
  {
    if i < j {
      BytesMonotone(bs, i, j - 1);
      BytesStep(bs, j - 1);
      assert bs[j - 1].WellFormed();
    }
  }

  lemma {:induction false} BytesStep(bs: seq<Batch>, i: nat)
    requires i < |bs|
    ensures Bytes(bs[..i + 1]) == Bytes(bs[..i]) + bs[i].size
  {
    assert bs[..i + 1][..i] == bs[..i];
  }

  lemma {:induction false} BytesAll(bs: seq<Batch>)
    ensures Bytes(bs[..|bs|]) == Bytes(bs)
  {
    assert bs[..|bs|] == bs;
  }

  lemma {:induction false} BytesConcat(a: seq<Batch>, b: seq<Batch>)
    ensures Bytes(a + b) == Bytes(a) + Bytes(b)
  {
    if |b| == 0 {
      assert a + b == a;
    } else {
      var n := |b| - 1;
      BytesConcat(a, b[..n]);
      assert (a + b)[..|a + b| - 1] == a + b[..n];
    }
  }

  /** The number of the batch that starts at byte `pos`, if one does. */
  function IndexAt(bs: seq<Batch>, pos: nat): (r: Option<nat>)
    ensures r.Some? ==> r.value < |bs| && Bytes(bs[..r.value]) == pos
  {
    if |bs| == 0 then None
    else
      var n := |bs| - 1;
      if Bytes(bs[..n]) == pos then Some(n)
      else
        var r := IndexAt(bs[..n], pos);
        assert r.Some? ==> bs[..n][..r.value] == bs[..r.value];
        r
  }

  lemma {:induction false} IndexAtPosition(bs: seq<Batch>, i: nat)
    requires WellFormedData(bs) && i < |bs|
    ensures IndexAt(bs, Bytes(bs[..i])) == Some(i)
  {
    var n := |bs| - 1;
    if i < n {
      BytesMonotone(bs, i, n);
      assert bs[..n][..i] == bs[..i];
      IndexAtPosition(bs[..n], i);
    }
  }

  // ----- Segment -----

  /** What the header of a stored batch says. */
  datatype Meta = Meta(firstOffset: nat, lastOffsetDelta: nat, size: nat)

  datatype AppendError = SegmentFull | OffsetOverflow

  /** Stamps a copy of the run if asked to, counting records without overflowing the offset. */
  method PrepareRun(data: seq<Batch>, first: nat, epoch: int, assign: bool)
    returns (buf: seq<Batch>, total: nat, ok: bool)
    ensures ok <==> |data| == 0 || first + Records(data) <= MAX_OFFSET
    ensures ok ==> buf == (if assign then Stamp(data, first, epoch) else data) && total == Records(data)
  {
    buf, total := [], 0;
    var offset := first;
    var i := 0;
    while i < |data|
      invariant 0 <= i <= |data|
      invariant offset == first + Records(data[..i]) && (i > 0 ==> offset <= MAX_OFFSET)
      invariant buf == if assign then Stamp(data[..i], first, epoch) else data[..i]
    {
      RunStep(data, i, first, epoch);
      var b := if assign then data[i].(base := offset, epoch := epoch) else data[i];
      if offset + data[i].count > MAX_OFFSET {
        RecordsGrow(data, i + 1);
        return [], 0, false;
      }
      buf := buf + [b];
      offset := offset + data[i].count;
      i := i + 1;
    }
    assert data[..i] == data;
    total := offset - first;
    ok := true;
  }

  lemma {:induction false} RunStep(data: seq<Batch>, i: nat, first: nat, epoch: int)
    requires i < |data|
    ensures Records(data[..i + 1]) == Records(data[..i]) + data[i].count
    ensures Stamp(data[..i + 1], first, epoch)
         == Stamp(data[..i], first, epoch) + [data[i].(base := first + Records(data[..i]), epoch := epoch)]
    ensures data[..i + 1] == data[..i] + [data[i]]
  {
    assert data[..i + 1][..i] == data[..i];
  }

  /** A prepared run continues the segment it is appended to. */
  lemma {:induction false} RunAppended(bs: seq<Batch>, base: nat, data: seq<Batch>, epoch: int, assign: bool)
    requires Contiguous(bs, base) && WellFormedData(data)
    requires !assign ==> Contiguous(data, EndOffset(bs, base))
    ensures var first := EndOffset(bs, base);
            var all := bs + (if assign then Stamp(data, first, epoch) else data);
            && Contiguous(all, base) && EndOffset(all, base) == first + Records(data)
            && Bytes(all) == Bytes(bs) + Bytes(data)
  {
    var first := EndOffset(bs, base);
    if assign {
      StampLog(data, first, epoch);
      StampBytes(data, first, epoch);
      AppendRun(bs, base, Stamp(data, first, epoch));
      BytesConcat(bs, Stamp(data, first, epoch));
    } else {
      ContiguousRecords(data, first);
      AppendRun(bs, base, data);
      BytesConcat(bs, data);
    }
  }

  /**
   Bytes `start` to `end` are the batches from `k` to `j`: at least one, and as many as fit in
   `maxBytes`.
   */
  ghost predicate Taken(bs: seq<Batch>, base: nat, maxBytes: int, k: nat, j: nat, start: nat, end: nat, upTo: nat) {
    && k < j <= |bs|
    && start == Bytes(bs[..k]) && end == Bytes(bs[..j]) && start <= end && upTo == EndOffset(bs[..j], base)
    && (j == k + 1 || end - start <= maxBytes)
    && (j < |bs| ==> Bytes(bs[..j + 1]) - start > maxBytes)
  }

  class Segment {
    const baseOffset: nat
    const maxSize: nat
    var batches: seq<Batch>
    var nextOffset: nat
    var currentSize: nat

    ghost predicate Valid()
      reads this
    {
      && Contiguous(batches, baseOffset)
      && nextOffset == EndOffset(batches, baseOffset)
      && currentSize == Bytes(batches)
    }

    constructor (baseOffset: nat, maxSize: nat)
      ensures Valid() && batches == []
      ensures this.baseOffset == baseOffset && this.maxSize == maxSize
    {
      this.baseOffset, this.maxSize := baseOffset, maxSize;
      batches, nextOffset, currentSize := [], baseOffset, 0;
    }

    predicate IsFull()
      reads this
    {
      currentSize >= maxSize
    }

    /** Reads a batch header at a file position; fails where no batch starts. */
    method ReadBatchMetaAt(pos: nat) returns (r: Option<Meta>)
      requires Valid()
      ensures r.Some? <==> IndexAt(batches, pos).Some?
      ensures r.Some? ==>
                var b := batches[IndexAt(batches, pos).value];
                r.value == Meta(b.base, b.count - 1, b.size) && b.count >= 1
    {
      var i := IndexAt(batches, pos);
      if i.None? { return None; }
      var b := batches[i.value];
      assert b.WellFormed();
      r := Some(Meta(b.base, b.count - 1, b.size));
    }

    /**
     Appends a run of batches, stamping offsets and epoch when the leader assigns them. An
     empty segment takes any size; the offset counter must not overflow.
     */
    method AppendBatches(data: seq<Batch>, epoch: int, assign: bool)
      returns (first: nat, pos: nat, total: nat, err: Option<AppendError>)
      requires Valid() && WellFormedData(data) && |data| > 0
      requires !assign ==> Contiguous(data, nextOffset)
      modifies this
      ensures Valid()
      ensures err == Some(SegmentFull) <==> old(currentSize) > 0 && old(currentSize) + Bytes(data) > maxSize
      ensures err == Some(OffsetOverflow) <==>
              !(old(currentSize) > 0 && old(currentSize) + Bytes(data) > maxSize)
              && old(nextOffset) + Records(data) > MAX_OFFSET
      ensures err.Some? ==> batches == old(batches)
      ensures err.None? ==>
                && batches == old(batches) + (if assign then Stamp(data, old(nextOffset), epoch) else data)
                && first == old(nextOffset) && pos == old(currentSize) && total == Records(data)
    {
      first, pos, total := 0, 0, 0;
      if currentSize > 0 && currentSize + Bytes(data) > maxSize { return 0, 0, 0, Some(SegmentFull); }
      var buf, ok;
      buf, total, ok := PrepareRun(data, nextOffset, epoch, assign);
      if !ok { return 0, 0, 0, Some(OffsetOverflow); }
      pos, first := currentSize, nextOffset;
      RunAppended(batches, baseOffset, data, epoch, assign);
      batches := batches + buf;
      nextOffset := nextOffset + total;
      currentSize := currentSize + Bytes(data);
      err := None;
    }

    /** Walks from the first batch to the file position whose batch starts at `offset`. */
    method FindTruncationPosition(offset: nat) returns (r: Option<nat>, ghost k: nat)
      requires Valid() && baseOffset <= offset <= nextOffset
      ensures r.Some? ==>
                k <= |batches| && r.value == Bytes(batches[..k]) && EndOffset(batches[..k], baseOffset) == offset
      ensures r.None? ==> k < |batches| && batches[k].base < offset < batches[k].End()
    {
      k := 0;
      var position := 0;
      while position < currentSize
        invariant k <= |batches| && position == Bytes(batches[..k])
        invariant EndOffset(batches[..k], baseOffset) <= offset
        decreases |batches| - k
      {
        BatchAt(batches, k, baseOffset);
        var meta := ReadBatchMetaAt(position);
        if meta.value.firstOffset == offset { return Some(position), k; }
        if meta.value.firstOffset < offset <= meta.value.firstOffset + meta.value.lastOffsetDelta {
          return None, k;
        }
        position := position + meta.value.size;
        k := k + 1;
      }
      AllRead(batches, k);
      r := Some(position);
    }

    /** Walks from batch `from` to the one that holds `offset`; fails in front of it or past the end. */
    method Scan(start: nat, offset: nat, ghost from: nat) returns (r: Option<nat>, ghost k: nat)
      requires Valid() && from < |batches| && start == Bytes(batches[..from])
      ensures r.Some? <==> batches[from].base <= offset < nextOffset
      ensures r.Some? ==>
                k < |batches| && r.value == Bytes(batches[..k]) && batches[k].base <= offset < batches[k].End()
    {
      k := from;
      var pos := start;
      while true
        invariant from <= k < |batches| && pos == Bytes(batches[..k])
        invariant batches[k].base <= offset <==> batches[from].base <= offset
        decreases |batches| - k
      {
        NotLast(batches, k, baseOffset);
        var meta := ReadBatchMetaAt(pos);
        var last := meta.value.firstOffset + meta.value.lastOffsetDelta;
        if meta.value.firstOffset <= offset <= last { return Some(pos), k; }
        if offset < meta.value.firstOffset { return None, k; }
        var next := pos + meta.value.size;
        if next >= currentSize { return None, k; }
        pos := next;
        k := k + 1;
      }
    }

    /**
     The byte range of the batches from `k` on that fit in `maxBytes`; the first batch is
     taken whatever its size.
     */
    method ReadRangeAt(start: nat, maxBytes: int, ghost k: nat) returns (end: nat, fetchedUpTo: nat, ghost j: nat)
      requires Valid() && k < |batches| && start == Bytes(batches[..k])
      ensures Taken(batches, baseOffset, maxBytes, k, j, start, end, fetchedUpTo)
    {
      var remaining, first := maxBytes, true;
      j, end, fetchedUpTo := k, start, 0;
      while end < currentSize
        invariant TakenSoFar(batches, baseOffset, maxBytes, k, j, start, end, fetchedUpTo) && (first <==> j == k)
        invariant remaining == maxBytes - (end - start)
        decreases |batches| - j
      {
        TakeOne(batches, baseOffset, maxBytes, k, j, start, end, fetchedUpTo);
        var meta := ReadBatchMetaAt(end);
        if !first && meta.value.size > remaining { return; }
        fetchedUpTo := meta.value.firstOffset + meta.value.lastOffsetDelta + 1;
        remaining := remaining - meta.value.size;
        end := end + meta.value.size;
        first := false;
        j := j + 1;
        if remaining <= 0 { return; }
      }
      TakenAll(batches, baseOffset, maxBytes, k, j, start, end, fetchedUpTo);
    }

    /** Cuts the file after `k` batches, given as a file position and the offset that follows. */
    method TruncateAt(position: nat, offset: nat, ghost k: nat)
      requires Valid() && k <= |batches|
      requires position == Bytes(batches[..k]) && offset == EndOffset(batches[..k], baseOffset)
      modifies this
      ensures Valid() && batches == old(batches)[..k]
    {
      PrefixAtBoundary(batches, k);
      PrefixContiguous(batches, baseOffset, k);
      batches := PrefixAt(batches, position);
      currentSize := position;
      nextOffset := offset;
    }
  }

  /** A file position inside the segment that ends a batch starts the next one. */
  lemma {:induction false} BatchAt(bs: seq<Batch>, k: nat, base: nat)
    requires Contiguous(bs, base) && k <= |bs| && Bytes(bs[..k]) < Bytes(bs)
    ensures k < |bs| && IndexAt(bs, Bytes(bs[..k])) == Some(k)
    ensures bs[k].base == EndOffset(bs[..k], base) && bs[k].End() == EndOffset(bs[..k + 1], base)
    ensures Bytes(bs[..k + 1]) == Bytes(bs[..k]) + bs[k].size
  {
    BytesAll(bs);
    IndexAtPosition(bs, k);
    BytesStep(bs, k);
  }

  /** Batch `k` and what follows it: the next batch, or the end of the segment. */
  lemma {:induction false} NotLast(bs: seq<Batch>, k: nat, base: nat)
    requires Contiguous(bs, base) && k < |bs|
    ensures IndexAt(bs, Bytes(bs[..k])) == Some(k)
    ensures Bytes(bs[..k + 1]) == Bytes(bs[..k]) + bs[k].size
    ensures Bytes(bs[..k + 1]) >= Bytes(bs) <==> k + 1 == |bs|
    ensures k + 1 == |bs| ==> bs[k].End() == EndOffset(bs, base)
    ensures k + 1 < |bs| ==> bs[k + 1].base == bs[k].End()
    ensures bs[k].End() <= EndOffset(bs, base)
  {
    IndexAtPosition(bs, k);
    BytesStep(bs, k);
    BytesMonotone(bs, k + 1, |bs|);
    BytesAll(bs);
    EndOffsetMonotone(bs, base, k + 1, |bs|);
    assert bs[..|bs|] == bs;
  }

  /** Where a range may stop: what it has fits, and the next batch does not. */
  lemma {:induction false} TakenUpTo(bs: seq<Batch>, base: nat, maxBytes: int, k: nat, j: nat, start: nat)
    requires WellFormedData(bs) && k < j <= |bs| && start == Bytes(bs[..k])
    requires j == k + 1 || Bytes(bs[..j]) - start <= maxBytes
    requires j < |bs| ==> Bytes(bs[..j]) + bs[j].size - start > maxBytes
    ensures Taken(bs, base, maxBytes, k, j, start, Bytes(bs[..j]), EndOffset(bs[..j], base))
  {
    BytesMonotone(bs, k, j);
    if j < |bs| { BytesStep(bs, j); }
  }

  /** Bytes `start` to `end` are the batches from `k` to `j`, which fit unless there is only one. */
  ghost predicate TakenSoFar(bs: seq<Batch>, base: nat, maxBytes: int, k: nat, j: nat, start: nat, end: nat,
                             upTo: nat) {
    && k <= j <= |bs| && k < |bs| && start == Bytes(bs[..k]) && end == Bytes(bs[..j])
    && (k < j ==> upTo == EndOffset(bs[..j], base)) && (j <= k + 1 || end - start <= maxBytes)
  }

  /** The next batch: either the range stops before it, or it is taken, and the range may stop behind it. */
  lemma {:induction false} TakeOne(bs: seq<Batch>, base: nat, maxBytes: int, k: nat, j: nat, start: nat, end: nat,
                                   upTo: nat)
    requires Contiguous(bs, base) && TakenSoFar(bs, base, maxBytes, k, j, start, end, upTo) && end < Bytes(bs)
    ensures j < |bs| && IndexAt(bs, end) == Some(j)
    ensures var size := bs[j].size;
            if k < j && size > maxBytes - (end - start) then Taken(bs, base, maxBytes, k, j, start, end, upTo)
            else
              && TakenSoFar(bs, base, maxBytes, k, j + 1, start, end + size, bs[j].End())
              && (end + size - start >= maxBytes ==>
                    Taken(bs, base, maxBytes, k, j + 1, start, end + size, bs[j].End()))
  {
    BatchAt(bs, j, base);
    if k < j && bs[j].size > maxBytes - (end - start) {
      TakenUpTo(bs, base, maxBytes, k, j, start);
    } else if end + bs[j].size - start >= maxBytes {
      if j + 1 < |bs| { assert bs[j + 1].WellFormed(); }
      TakenUpTo(bs, base, maxBytes, k, j + 1, start);
    }
  }

  lemma {:induction false} TakenAll(bs: seq<Batch>, base: nat, maxBytes: int, k: nat, j: nat, start: nat, end: nat,
                                    upTo: nat)
    requires Contiguous(bs, base) && TakenSoFar(bs, base, maxBytes, k, j, start, end, upTo) && end >= Bytes(bs)
    ensures Taken(bs, base, maxBytes, k, j, start, end, upTo)
  {
    AllRead(bs, j);
    TakenUpTo(bs, base, maxBytes, k, j, start);
  }

  lemma {:induction false} AllRead(bs: seq<Batch>, k: nat)
    requires WellFormedData(bs) && k <= |bs| && Bytes(bs[..k]) >= Bytes(bs)
    ensures k == |bs| && bs[..k] == bs
  {
    BytesMonotone(bs, k, |bs|);
    BytesAll(bs);
  }

  lemma {:induction false} RecordsGrow(data: seq<Batch>, i: nat)
    requires i <= |data|
    ensures Records(data[..i]) <= Records(data)
    decreases |data| - i
  {
    if i == |data| {
      assert data[..i] == data;
    } else {
      assert data[..i + 1][..i] == data[..i];
      RecordsGrow(data, i + 1);
    }
  }

  lemma {:induction false} ContiguousRecords(data: seq<Batch>, from: nat)
    requires Contiguous(data, from)
    ensures EndOffset(data, from) == from + Records(data)
  {
    if |data| > 0 {
      var n := |data| - 1;
      PrefixContiguous(data, from, n);
      ContiguousRecords(data[..n], from);
    }
  }

  lemma {:induction false} StampBytes(data: seq<Batch>, from: nat, epoch: int)
    ensures Bytes(Stamp(data, from, epoch)) == Bytes(data)
  {
    if |data| > 0 {
      var n := |data| - 1;
      StampBytes(data[..n], from, epoch);
      assert Stamp(data, from, epoch)[..n] == Stamp(data[..n], from, epoch);
    }
  }

  /** Appending a run that follows the segment end. */
  lemma {:induction false} AppendRun(bs: seq<Batch>, from: nat, more: seq<Batch>)
    requires Contiguous(bs, from) && Contiguous(more, EndOffset(bs, from))
    ensures Contiguous(bs + more, from)
    ensures EndOffset(bs + more, from) == EndOffset(more, EndOffset(bs, from))
  {
    if |more| == 0 {
      assert bs + more == bs;
    } else {
      var n := |more| - 1;
      PrefixContiguous(more, EndOffset(bs, from), n);
      AppendRun(bs, from, more[..n]);
      AppendOneContiguous(bs + more[..n], from, more[n]);
      SnocConcat(bs, more);
    }
  }

  /** The whole batches stored before a file position. */
  function PrefixAt(bs: seq<Batch>, position: nat): seq<Batch> {
    if |bs| == 0 || Bytes(bs) <= position then bs else PrefixAt(bs[..|bs| - 1], position)
  }

  lemma {:induction false} PrefixAtBoundary(bs: seq<Batch>, k: nat)
    requires WellFormedData(bs) && k <= |bs|
    ensures PrefixAt(bs, Bytes(bs[..k])) == bs[..k]
  {
    if k == |bs| {
      assert bs[..k] == bs;
    } else {
      var n := |bs| - 1;
      BytesMonotone(bs, k, |bs|);
      BytesAll(bs);
      assert bs[..n][..k] == bs[..k];
      PrefixAtBoundary(bs[..n], k);
    }
  }

  // ----- Index -----

  datatype Slot = Slot(relOffset: nat, position: nat)

  /** The bisection of an index lookup, on slots that need not be sorted. */
  function Bisect(s: seq<Slot>, rel: nat, low: nat, high: int, best: nat): (r: nat)
    requires best < |s| && low <= high + 1 <= |s|
    ensures r < |s|
    decreases high + 1 - low
  {
    if low > high then best
    else
      var mid := (low + high) / 2;
      if s[mid].relOffset <= rel then Bisect(s, rel, mid + 1, high, mid) else Bisect(s, rel, low, mid - 1, best)
  }

  /** The bisection ends between a slot at or below `rel` and one above it, or at the first slot. */
  lemma {:induction false} BisectEnds(s: seq<Slot>, rel: nat, low: nat, high: int, best: nat)
    requires best < |s| && low <= high + 1 <= |s|
    requires best == (if low == 0 then 0 else low - 1) && (low == 0 || s[low - 1].relOffset <= rel)
    requires high + 1 == |s| || s[high + 1].relOffset > rel
    ensures var r := Bisect(s, rel, low, high, best);
            && (r == 0 || s[r].relOffset <= rel)
            && (s[r].relOffset <= rel && r + 1 < |s| ==> s[r + 1].relOffset > rel)
    decreases high + 1 - low
  {
    if low <= high {
      var mid := (low + high) / 2;
      assert low <= mid <= high;
      if s[mid].relOffset <= rel {
        BisectEnds(s, rel, mid + 1, high, mid);
      } else {
        BisectEnds(s, rel, low, mid - 1, best);
      }
    }
  }

  /** The slot an offset lookup ends at. */
  ghost function Hit(slots: seq<Slot>, base: nat, offset: nat): (r: nat)
    requires |slots| > 0 && offset >= base
    ensures r < |slots|
  {
    Bisect(slots, (offset - base) % TWO_TO_32, 0, |slots| - 1, 0)
  }

  class Index {
    const baseOffset: nat
    const maxBytes: nat
    const slots: array<Slot>
    var count: nat

    ghost predicate Valid()
      reads this
    {
      slots.Length == maxBytes / INDEX_ENTRY_SIZE && count <= slots.Length
    }

    ghost function Entries(): seq<Slot>
      requires Valid()
      reads this, slots
    {
      slots[..count]
    }

    constructor (baseOffset: nat, maxBytes: nat)
      ensures Valid() && count == 0 && fresh(slots)
      ensures this.baseOffset == baseOffset && this.maxBytes == maxBytes
    {
      this.baseOffset, this.maxBytes := baseOffset, maxBytes;
      slots := new Slot[maxBytes / INDEX_ENTRY_SIZE](_ => Slot(0, 0));
      count := 0;
    }

    predicate IsFull()
      reads this
    {
      count * INDEX_ENTRY_SIZE + INDEX_ENTRY_SIZE > maxBytes
    }

    method Reset()
      requires Valid()
      modifies this
      ensures Valid() && count == 0
    {
      count := 0;
    }

    method Write(offset: nat, position: nat) returns (ok: bool)
      requires Valid() && offset >= baseOffset
      modifies this, slots
      ensures Valid()
      ensures ok <==> old(count) < slots.Length
      ensures ok ==> Entries() == old(Entries()) + [Slot((offset - baseOffset) % TWO_TO_32, position)]
      ensures !ok ==> Entries() == old(Entries())
    {
      if IsFull() { return false; }
      slots[count] := Slot((offset - baseOffset) % TWO_TO_32, position);
      count := count + 1;
      ok := true;
    }

    /** Position the bisection ends at; 0 when the index is empty. */
    method Lookup(offset: nat) returns (r: Option<nat>)
      requires Valid()
      ensures count == 0 ==> r == Some(0)
      ensures count > 0 ==> (r.None? <==> offset < baseOffset)
      ensures count > 0 && r.Some? ==>
                r.value == Entries()[Hit(Entries(), baseOffset, offset)].position
    {
      if count == 0 { return Some(0); }
      if offset < baseOffset { return None; }
      var rel := (offset - baseOffset) % TWO_TO_32;
      var low, high, result := 0, count as int - 1, 0;
      while low <= high
        invariant 0 <= low <= high + 1 <= count && 0 <= result < count
        invariant Bisect(Entries(), rel, low, high, result) == Bisect(Entries(), rel, 0, count - 1, 0)
        decreases high - low
      {
        var mid := (low + high) / 2;
        if slots[mid].relOffset <= rel {
          result := mid;
          low := mid + 1;
        } else {
          high := mid - 1;
        }
      }
      r := Some(slots[result].position);
    }
  }
}
