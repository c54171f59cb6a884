/**
 A partition replica: its log, role, in-sync replicas, high watermark and waiting produce
 requests. Every operation is proved to do what the partition model says.
 */
module Partitions {
  import opened Batches
  import opened EpochCache
  import opened PartitionModel
  import opened Purgatory
  import opened Reconciliation
  import opened ReconciliationRuns
  import opened SegmentedLog
  import opened SegmentLayout
  import opened Segments

  // ----- Loops over the in-sync replicas -----

  lemma {:induction false} MinStep(isr: seq<IsrEntry>, local: int, a: nat, b: nat)
    ensures IsrMin(isr, local, Min(a, b)) == Min(a, IsrMin(isr, local, b))
  {
    if |isr| > 0 { MinStep(isr[1..], local, a, b); }
  }

  method SmallestLeo(isr: seq<IsrEntry>, local: int, leo: nat) returns (m: nat)
    ensures m == IsrMin(isr, local, leo)
  {
    m := leo;
    var i := 0;
    while i < |isr|
      invariant 0 <= i <= |isr|
      invariant IsrMin(isr[i..], local, m) == IsrMin(isr, local, leo)
    {
      assert isr[i..][1..] == isr[i + 1..];
      MinStep(isr[i + 1..], local, isr[i].leo, m);
      if isr[i].broker != local && isr[i].leo < m { m := isr[i].leo; }
      i := i + 1;
    }
  }

  lemma {:induction false} RecordAt(isr: seq<IsrEntry>, id: int, leo: nat, i: nat)
    requires i < |isr|
    ensures RecordLeo(isr[i..], id, leo)
         == if isr[i].broker == id then [IsrEntry(id, leo)] + isr[i + 1..]
            else [isr[i]] + RecordLeo(isr[i + 1..], id, leo)
  {
    assert isr[i..][1..] == isr[i + 1..];
  }

  lemma {:induction false} Rejoin<T>(s: seq<T>, i: nat, x: T, t: seq<T>)
    requires i < |s|
    ensures s[..i] + ([s[i]] + t) == s[..i + 1] + t && s[..i] + ([x] + s[i + 1..]) == s[i := x]
  {
    assert s[..i] + [s[i]] == s[..i + 1];
  }

  method SetLeo(isr: seq<IsrEntry>, id: int, leo: nat) returns (r: seq<IsrEntry>)
    ensures r == RecordLeo(isr, id, leo)
  {
    var i := 0;
    while i < |isr|
      invariant 0 <= i <= |isr|
      invariant RecordLeo(isr, id, leo) == isr[..i] + RecordLeo(isr[i..], id, leo)
    {
      RecordAt(isr, id, leo, i);
      Rejoin(isr, i, IsrEntry(id, leo), RecordLeo(isr[i + 1..], id, leo));
      if isr[i].broker == id { return isr[i := IsrEntry(id, leo)]; }
      i := i + 1;
    }
    r := isr;
  }

  method CarryLeos(isr: seq<IsrEntry>, ids: seq<int>) returns (next: seq<IsrEntry>)
    ensures next == NewIsr(isr, ids)
  {
    var previous: map<int, nat> := map[];
    var i := 0;
    while i < |isr|
      invariant 0 <= i <= |isr|
      invariant forall id :: RecordedLeo(isr[..i], id) == if id in previous then previous[id] else 0
    {
      assert isr[..i + 1][..i] == isr[..i];
      previous := previous[isr[i].broker := isr[i].leo];
      i := i + 1;
    }
    assert isr[..i] == isr;
    next := [];
    i := 0;
    while i < |ids|
      invariant 0 <= i <= |ids| && |next| == i
      invariant forall k :: 0 <= k < i ==> next[k] == IsrEntry(ids[k], RecordedLeo(isr, ids[k]))
    {
      next := next + [IsrEntry(ids[i], if ids[i] in previous then previous[ids[i]] else 0)];
      i := i + 1;
    }
  }

  /** Batches `k` to `c` are those of `k` to `j` that end at or below `maxOffset`. */
  ghost predicate Visible(bs: seq<Batch>, maxOffset: nat, k: nat, c: nat, j: nat) {
    && k <= c <= j <= |bs|
    && (forall i :: k <= i < c ==> bs[i].End() <= maxOffset)
    && (c < j ==> bs[c].End() > maxOffset)
  }

  lemma {:induction false} VisibleUpTo(bs: seq<Batch>, base: nat, maxOffset: nat, k: nat, c: nat, j: nat)
    requires Contiguous(bs, base) && k <= c <= j <= |bs|
    requires c > k ==> bs[c - 1].End() <= maxOffset
    requires c < j ==> bs[c].End() > maxOffset
    ensures Visible(bs, maxOffset, k, c, j)
  {
    forall i | k <= i < c ensures bs[i].End() <= maxOffset {
      EndOffsetMonotone(bs, base, i + 1, c);
    }
  }

  lemma {:induction false} BatchBelow(bs: seq<Batch>, c: nat, j: nat, base: nat)
    requires Contiguous(bs, base) && c <= j <= |bs|
    ensures Bytes(bs[..c]) < Bytes(bs[..j]) <==> c < j
    ensures c < j ==>
              IndexAt(bs, Bytes(bs[..c])) == Some(c) && Bytes(bs[..c + 1]) == Bytes(bs[..c]) + bs[c].size
  {
    BytesMonotone(bs, c, j);
    if c < j {
      IndexAtPosition(bs, c);
      BytesStep(bs, c);
    }
  }

  /** Where the batches `k` to `j` of a byte range that end at or below `maxOffset` end. */
  method CapToHw(segment: Segment, start: nat, end: nat, maxOffset: nat, fallback: nat, ghost k: nat, ghost j: nat)
    returns (pos: nat, upTo: nat, ghost c: nat)
    requires segment.Valid() && k <= j <= |segment.batches|
    requires start == Bytes(segment.batches[..k]) && end == Bytes(segment.batches[..j])
    ensures Visible(segment.batches, maxOffset, k, c, j) && pos == Bytes(segment.batches[..c])
    ensures upTo == if c == k then fallback else segment.batches[c - 1].End()
  {
    c, pos, upTo := k, start, fallback;
    while pos < end
      invariant k <= c <= j && pos == Bytes(segment.batches[..c])
      invariant c == k || upTo <= maxOffset
      invariant upTo == if c == k then fallback else segment.batches[c - 1].End()
      decreases j - c
    {
      BatchBelow(segment.batches, c, j, segment.baseOffset);
      var meta := segment.ReadBatchMetaAt(pos);
      var batchEnd := meta.value.firstOffset + meta.value.lastOffsetDelta + 1;
      if batchEnd > maxOffset {
        VisibleUpTo(segment.batches, segment.baseOffset, maxOffset, k, c, j);
        return;
      }
      pos := pos + meta.value.size;
      upTo := batchEnd;
      c := c + 1;
    }
    BatchBelow(segment.batches, c, j, segment.baseOffset);
    VisibleUpTo(segment.batches, segment.baseOffset, maxOffset, k, c, j);
  }

  // ----- Fetching -----

  datatype Fetch = NotFetched(error: Error) | Fetched(range: Option<RawRange>, size: nat, fetchedUpTo: nat)

  /** The batches `got` follow one another in the log from the one that holds `offset` on. */
  ghost predicate Delivered(f: Fetch, bs: seq<Batch>, offset: nat, got: seq<Batch>)
    requires f.Fetched?
  {
    && got <= bs[CountUpTo(bs, offset)..]
    && f.size == Bytes(got) && f.fetchedUpTo == (if |got| == 0 then offset else got[|got| - 1].End())
    && (f.range.Some? <==> |got| > 0)
  }

  /** Everything delivered lies at or past the batch of the fetch offset and below `fetchedUpTo`. */
  lemma {:induction false} DeliveredBelow(f: Fetch, bs: seq<Batch>, offset: nat, got: seq<Batch>, i: nat)
    requires f.Fetched? && IsLog(bs) && Delivered(f, bs, offset, got) && i < |got|
    ensures got[0].base <= offset < got[0].End() && got[i].End() <= f.fetchedUpTo
    ensures i > 0 ==> got[i].base == got[i - 1].End()
  {
    var g := CountUpTo(bs, offset);
    TailAt(bs, g, got, 0);
    TailAt(bs, g, got, i);
    TailAt(bs, g, got, |got| - 1);
    CountUpToAt(bs, offset);
    EndOffsetMonotone(bs, 0, g + i + 1, g + |got|);
    if i > 0 {
      TailAt(bs, g, got, i - 1);
      assert bs[g + i].base == Leo(bs[..g + i]);
    }
  }

  lemma {:induction false} TailAt<T>(s: seq<T>, g: nat, t: seq<T>, i: nat)
    requires g <= |s| && t <= s[g..] && i < |t|
    ensures g + i < |s| && t[i] == s[g + i]
  {
    assert t[i] == s[g..][i];
  }

  lemma {:induction false} SliceTail<T>(a: seq<T>, s: seq<T>, k: nat, c: nat, j: nat, g: nat)
    requires k <= c <= j <= |a| && g + (j - k) <= |s| && s[g..g + (j - k)] == a[k..j]
    ensures a[k..c] <= s[g..] && a[..c] == a[..k] + a[k..c]
  {
    assert a[k..c] == a[k..j][..c - k] == s[g..][..c - k];
  }

  /** The byte range holds exactly the batches `got`, from batch `k` of its segment on. */
  ghost predicate Stored(f: Fetch, stored: seq<Batch>, got: seq<Batch>, k: nat)
    requires f.Fetched? && f.range.Some?
  {
    && k + |got| <= |stored| && got == stored[k..k + |got|]
    && f.range.value.start == Bytes(stored[..k]) && f.range.value.end == Bytes(stored[..k + |got|])
  }

  function FetchOf(segment: Segment, start: nat, end: nat, upTo: nat, offset: nat): Fetch
    requires start <= end
  {
    if end == start then Fetched(None, 0, offset)
    else Fetched(Some(RawRange(segment, start, end, upTo)), end - start, upTo)
  }

  lemma {:induction false} BytesBetween(bs: seq<Batch>, k: nat, c: nat, j: nat)
    requires WellFormedData(bs) && k <= c <= j <= |bs|
    ensures Bytes(bs[..k]) <= Bytes(bs[..c]) <= Bytes(bs[..j])
    ensures Bytes(bs[..c]) == Bytes(bs[..k]) + Bytes(bs[k..c])
    ensures Bytes(bs[..k]) == Bytes(bs[..c]) <==> c == k
  {
    assert bs[..c] == bs[..k] + bs[k..c];
    BytesConcat(bs[..k], bs[k..c]);
    BytesMonotone(bs, k, c);
    BytesMonotone(bs, c, j);
  }

  lemma {:induction false} SliceHas(log: seq<Batch>, offset: nat, bs: seq<Batch>, base: nat, k: nat, j: nat,
                                    g: nat, c: nat)
    requires Slice(log, offset, bs, base, k, j, g) && k <= c <= j
    ensures bs[k..c] <= log[CountUpTo(log, offset)..] && |bs[k..c]| == c - k
    ensures c > k ==> bs[k..c][c - k - 1] == bs[c - 1]
    ensures k + |bs[k..c]| == c
  {
    SliceTail(bs, log, k, c, j, g);
  }

  /** Batches `k` to `c` of what was read. */
  lemma {:induction false} RangeDelivers(segment: Segment, log: seq<Batch>, offset: nat, g: nat, k: nat, j: nat, c: nat)
    requires segment.Valid() && k <= c <= j && Slice(log, offset, segment.batches, segment.baseOffset, k, j, g)
    ensures var bs := segment.batches;
            var start, end := Bytes(bs[..k]), Bytes(bs[..c]);
            && start <= end <= Bytes(bs[..j]) && (start == end <==> c == k)
            && var f := FetchOf(segment, start, end, if c == k then offset else bs[c - 1].End(), offset);
            && Delivered(f, log, offset, bs[k..c])
            && (f.range.Some? ==> Stored(f, bs, bs[k..c], k))
  {
    SliceHas(log, offset, segment.batches, segment.baseOffset, k, j, g, c);
    BytesBetween(segment.batches, k, c, j);
  }

  lemma {:induction false} VisiblePart(bs: seq<Batch>, base: nat, hw: nat, k: nat, c: nat, j: nat)
    requires Visible(bs, hw, k, c, j) && k < j
    ensures var got := bs[k..c];
            && |got| == c - k && k + |got| == c && (|got| < j - k ==> bs[k + |got|].End() > hw)
            && (EndOffset(bs[..j], base) > hw ==> |got| < j - k) && (c > k ==> bs[c - 1].End() <= hw)
  {
  }

  /** The batches of a read range that a consumer may see up to the high watermark. */
  method Cap(r: RawRange, hw: nat, offset: nat, ghost log: seq<Batch>, ghost g: nat, ghost k: nat, ghost j: nat)
    returns (f: Fetch, ghost got: seq<Batch>)
    requires r.segment.Valid() && Slice(log, offset, r.segment.batches, r.segment.baseOffset, k, j, g)
    requires r.start == Bytes(r.segment.batches[..k]) && r.end == Bytes(r.segment.batches[..j])
    ensures f.Fetched? && Delivered(f, log, offset, got) && f.size <= r.end - r.start && |got| <= j - k
    ensures f.range.Some? ==> f.range.value.segment == r.segment && Stored(f, r.segment.batches, got, k)
    ensures |got| > 0 ==> f.fetchedUpTo <= hw
    ensures |got| < j - k ==> r.segment.batches[k + |got|].End() > hw
    ensures EndOffset(r.segment.batches[..j], r.segment.baseOffset) > hw ==> |got| < j - k
  {
    var pos, upTo;
    ghost var c;
    pos, upTo, c := CapToHw(r.segment, r.start, r.end, hw, offset, k, j);
    got := r.segment.batches[k..c];
    VisiblePart(r.segment.batches, r.segment.baseOffset, hw, k, c, j);
    RangeDelivers(r.segment, log, offset, g, k, j, c);
    f := FetchOf(r.segment, r.start, pos, upTo, offset);
  }

  /** The limits of a fetch: a consumer's high watermark, and how many bytes may be returned. */
  datatype Limits = Limits(hw: nat, isFollower: bool, maxBytes: int, allowOversized: bool)

  /**
   Why the batch after the delivered ones is not delivered: it is hidden from a consumer, it
   does not fit (which a lone first batch need not, where that is allowed), or it starts a segment.
   */
  ghost predicate Exhausted(bs: seq<Batch>, bases: seq<nat>, offset: nat, got: seq<Batch>, l: Limits) {
    var g := CountUpTo(bs, offset) + |got|;
    g < |bs| ==>
      || (!l.isFollower && bs[g].End() > l.hw)
      || (Bytes(got) + bs[g].size > l.maxBytes && (|got| > 0 || !l.allowOversized))
      || (|got| > 0 && bs[g].base in bases)
  }

  lemma {:induction false} SliceAt(log: seq<Batch>, offset: nat, bs: seq<Batch>, base: nat, k: nat, j: nat, g: nat,
                                   i: nat)
    requires Slice(log, offset, bs, base, k, j, g) && k <= i < j
    ensures log[g + (i - k)] == bs[i]
  {
    assert log[g..g + (j - k)][i - k] == bs[k..j][i - k];
  }

  /** A first batch that is larger than all that may be returned. */
  lemma {:induction false} FirstTooLarge(log: seq<Batch>, bases: seq<nat>, offset: nat, bs: seq<Batch>, base: nat,
                                         k: nat, j: nat, g: nat, start: nat, end: nat, upTo: nat, l: Limits)
    requires Slice(log, offset, bs, base, k, j, g) && Taken(bs, base, l.maxBytes, k, j, start, end, upTo)
    requires !l.allowOversized && end - start > l.maxBytes
    ensures Exhausted(log, bases, offset, [], l)
  {
    SliceAt(log, offset, bs, base, k, j, g, k);
    BytesStep(bs, k);
  }

  /** A consumer's range that stops below the high watermark. */
  lemma {:induction false} HiddenNext(log: seq<Batch>, bases: seq<nat>, offset: nat, bs: seq<Batch>, base: nat,
                                      k: nat, j: nat, g: nat, got: seq<Batch>, l: Limits)
    requires Slice(log, offset, bs, base, k, j, g) && |got| < j - k && !l.isFollower && bs[k + |got|].End() > l.hw
    ensures Exhausted(log, bases, offset, got, l)
  {
    SliceAt(log, offset, bs, base, k, j, g, k + |got|);
  }

  lemma {:induction false} WholeRange(log: seq<Batch>, bases: seq<nat>, offset: nat, bs: seq<Batch>, base: nat,
                                      k: nat, j: nat, g: nat, l: Limits)
    requires Slice(log, offset, bs, base, k, j, g) && FullRange(log, bases, l.maxBytes, g, j - k)
    ensures Exhausted(log, bases, offset, bs[k..j], l)
  {
  }

  lemma {:induction false} LastEnd(bs: seq<Batch>, base: nat, k: nat, j: nat)
    requires k < j <= |bs|
    ensures bs[k..j][j - k - 1].End() == EndOffset(bs[..j], base) == bs[j - 1].End()
  {
  }

  /**
   Reads for a follower or a consumer of a serving leader: whole batches from the one that
   holds the offset on, as many as the limits allow within a segment. A consumer sees no batch
   that ends past the high watermark; nothing larger than asked for is returned but a lone
   first batch, where that is allowed.
   */
  method FetchRanges(log: Log, hw: nat, offset: nat, isFollower: bool, maxBytes: int, allowOversized: bool)
    returns (f: Fetch, ghost got: seq<Batch>, ghost k: nat)
    requires log.View().Some?
    ensures f == NotFetched(OffsetOutOfRange) <==> offset > log.View().value.End()
    ensures f.NotFetched? && log.Narrow() && hw <= log.View().value.End() ==> offset > log.View().value.End()
    ensures f.Fetched? ==> Delivered(f, log.View().value.batches, offset, got)
    ensures f.Fetched? && f.range.Some? ==> Stored(f, f.range.value.segment.batches, got, k)
    ensures f.Fetched? && !isFollower && |got| > 0 ==> f.fetchedUpTo <= hw
    ensures f.Fetched? ==> f.size == 0 || f.size <= maxBytes || (allowOversized && |got| == 1)
    ensures f.Fetched? ==> Exhausted(log.View().value.batches, log.lay.bases, offset, got,
                                     Limits(hw, isFollower, maxBytes, allowOversized))
  {
    var leo := log.NextOffset();
    got, k := [], 0;
    if offset > leo { return NotFetched(OffsetOutOfRange), got, k; }
    HolderOf(log, offset);
    if !isFollower && offset >= hw { return Fetched(None, 0, offset), got, k; }
    if isFollower && offset == leo { return Fetched(None, 0, offset), got, k; }
    f, got, k := FetchBelow(log, hw, offset, isFollower, maxBytes, allowOversized);
  }

  lemma {:induction false} HolderOf(log: Log, offset: nat)
    requires log.View().Some? && offset <= log.View().value.End()
    ensures var bs := log.View().value.batches;
            var g := CountUpTo(bs, offset);
            g <= |bs| && (g < |bs| ==> offset < bs[g].End()) && (g < |bs| ==> offset < Leo(bs))
  {
    FlattenLog(log.lay.segs, log.lay.bases);
    CountUpToAt(log.View().value.batches, offset);
  }

  method FetchBelow(log: Log, hw: nat, offset: nat, isFollower: bool, maxBytes: int, allowOversized: bool)
    returns (f: Fetch, ghost got: seq<Batch>, ghost k: nat)
    requires log.View().Some? && offset <= log.View().value.End()
    ensures f.NotFetched? ==> f.error == StorageError && (log.Narrow() ==> offset >= log.View().value.End())
    ensures f.Fetched? ==> Delivered(f, log.View().value.batches, offset, got)
    ensures f.Fetched? && f.range.Some? ==> Stored(f, f.range.value.segment.batches, got, k)
    ensures f.Fetched? && !isFollower && |got| > 0 ==> f.fetchedUpTo <= hw
    ensures f.Fetched? ==> f.size == 0 || f.size <= maxBytes || (allowOversized && |got| == 1)
    ensures f.Fetched? ==> Exhausted(log.View().value.batches, log.lay.bases, offset, got,
                                     Limits(hw, isFollower, maxBytes, allowOversized))
  {
    var raw;
    ghost var g, j;
    got := [];
    raw, g, k, j := log.ReadRawRanges(offset, maxBytes);
    if raw.None? { return NotFetched(StorageError), got, k; }
    f, got := Limit(raw.value, Limits(hw, isFollower, maxBytes, allowOversized), offset, log.View().value.batches,
                    log.lay.bases, g, k, j);
  }

  /** All of a read range. */
  method Whole(r: RawRange, offset: nat, ghost log: seq<Batch>, ghost g: nat, ghost k: nat, ghost j: nat)
    returns (f: Fetch, ghost got: seq<Batch>)
    requires r.segment.Valid() && Slice(log, offset, r.segment.batches, r.segment.baseOffset, k, j, g)
    requires r.start == Bytes(r.segment.batches[..k]) && r.end == Bytes(r.segment.batches[..j])
    requires r.fetchedUpTo == EndOffset(r.segment.batches[..j], r.segment.baseOffset)
    ensures f.Fetched? && Delivered(f, log, offset, got) && got == r.segment.batches[k..j]
    ensures f.size == r.end - r.start && f.fetchedUpTo == r.fetchedUpTo
    ensures f.range.Some? ==> Stored(f, f.range.value.segment.batches, got, k)
  {
    LastEnd(r.segment.batches, r.segment.baseOffset, k, j);
    RangeDelivers(r.segment, log, offset, g, k, j, j);
    got := r.segment.batches[k..j];
    f := FetchOf(r.segment, r.start, r.end, r.fetchedUpTo, offset);
  }

  /** What of a read range is returned. */
  method Limit(r: RawRange, l: Limits, offset: nat, ghost log: seq<Batch>, ghost bases: seq<nat>, ghost g: nat,
               ghost k: nat, ghost j: nat)
    returns (f: Fetch, ghost got: seq<Batch>)
    requires r.segment.Valid() && Slice(log, offset, r.segment.batches, r.segment.baseOffset, k, j, g)
    requires Taken(r.segment.batches, r.segment.baseOffset, l.maxBytes, k, j, r.start, r.end, r.fetchedUpTo)
    requires FullRange(log, bases, l.maxBytes, g, j - k)
    ensures f.Fetched? && Delivered(f, log, offset, got) && Exhausted(log, bases, offset, got, l)
    ensures f.range.Some? ==> Stored(f, f.range.value.segment.batches, got, k)
    ensures !l.isFollower && |got| > 0 ==> f.fetchedUpTo <= l.hw
    ensures f.size == 0 || f.size <= l.maxBytes || (l.allowOversized && |got| == 1)
  {
    ghost var bs, base := r.segment.batches, r.segment.baseOffset;
    if !l.allowOversized && r.end - r.start > l.maxBytes {
      FirstTooLarge(log, bases, offset, bs, base, k, j, g, r.start, r.end, r.fetchedUpTo, l);
      return Fetched(None, 0, offset), [];
    }
    if !l.isFollower && r.fetchedUpTo > l.hw {
      f, got := Cap(r, l.hw, offset, log, g, k, j);
      HiddenNext(log, bases, offset, bs, base, k, j, g, got, l);
    } else {
      f, got := Whole(r, offset, log, g, k, j);
      WholeRange(log, bases, offset, bs, base, k, j, g, l);
    }
  }

  /** What a produce request waits for. */
  const ACKS_NONE := 0
  const ACKS_LEADER := 1
  const ACKS_ALL := -1

  /** The log is the view of a `SegmentedLog.Log`; the state is changed field by field. */
  class Partition {
    const local: int
    const waiters: WaiterQueue
    var log: ReplicaLog
    var hw: nat
    var isLeader: bool
    var leaderEpoch: int
    var leaderId: int
    var isr: seq<IsrEntry>
    var closed: bool
    /** The highest value the high watermark ever had. */
    ghost var peak: nat

    /** No waiter was woken for an offset the high watermark never reached; a closed partition has no waiters. */
    ghost predicate Valid()
      reads this, waiters, waiters.all
    {
      && waiters.Valid() && waiters.reached <= peak && hw <= peak
      && (closed || !isLeader ==> waiters.heap == [])
    }

    ghost function View(): State
      reads this
    {
      State(local, log, hw, isLeader, leaderEpoch, leaderId, isr, closed)
    }

    constructor (local: int, log: ReplicaLog)
      ensures Valid() && View() == State(local, log, 0, false, 0, -1, [], false)
      ensures fresh(waiters) && waiters.all == {}
    {
      this.local, this.log := local, log;
      waiters := new WaiterQueue();
      hw, isLeader, leaderEpoch, leaderId, isr, closed, peak := 0, false, 0, -1, [], false, 0;
    }

    /** Raises the high watermark to what all in-sync replicas have and wakes whoever waited for it. */
    method MaybeAdvanceHw()
      requires Valid()
      modifies this`hw, this`peak, waiters`heap, waiters`reached, waiters.all
      ensures Valid() && View() == AdvanceHw(old(View()))
      ensures forall w :: w in waiters.all ==>
                            && w.err == old(w.err)
                            && (w.closed <==> old(w.closed) || (isLeader && |isr| > 0 && w.requiredHw <= hw))
    {
      if !isLeader { return; }
      var newHw := SmallestLeo(isr, local, log.End());
      if |isr| == 0 { return; }
      if newHw <= hw {
        waiters.Drain(hw);
        return;
      }
      hw := newHw;
      peak := if peak < newHw then newHw else peak;
      waiters.Drain(newHw);
    }

    /** Stops serving: every waiting request fails. */
    method StepDown(leader: int)
      requires Valid()
      modifies this`isLeader, this`leaderId, this`isr, waiters`heap, waiters.all
      ensures Valid() && View() == old(View()).(isLeader := false, leaderId := leader, isr := [])
      ensures forall w :: w in waiters.all ==>
                            w.closed && w.err == if old(w.closed) then old(w.err) else Some(NotLeader)
    {
      isLeader, leaderId, isr := false, leader, [];
      waiters.FailAll(NotLeader);
    }

    method MakeLeader(epoch: int, ids: seq<int>, initialHw: nat) returns (err: Option<Error>)
      requires Valid()
      modifies this, waiters`heap, waiters.all
      ensures Valid() && Step(View(), err) == PartitionModel.MakeLeader(old(View()), epoch, ids, initialHw)
      ensures forall w :: w in waiters.all ==>
                            if err == Some(InvalidLeaderEpoch) && !old(w.closed)
                            then w.closed && w.err == Some(NotLeader)
                            else w.closed == old(w.closed) && w.err == old(w.err)
    {
      if |log.cache| > 0 && epoch < log.cache[|log.cache| - 1].epoch { return Some(StaleLeaderEpoch); }
      if epoch < 0 {
        StepDown(-1);
        return Some(InvalidLeaderEpoch);
      }
      log := log.(cache := Assigned(log.cache, epoch, log.End()));
      leaderEpoch, leaderId := epoch, local;
      isr := FreshIsr(ids);
      hw := initialHw;
      peak := if peak < initialHw then initialHw else peak;
      isLeader := true;
      err := None;
    }

    method MakeFollower(epoch: int, leader: int)
      requires Valid()
      modifies this, waiters`heap, waiters.all
      ensures Valid() && View() == PartitionModel.MakeFollower(old(View()), epoch, leader)
      ensures forall w :: w in waiters.all ==>
                            w.closed && w.err == if old(w.closed) then old(w.err) else Some(NotLeader)
    {
      leaderEpoch := epoch;
      StepDown(leader);
    }

    method MakeUnassigned()
      requires Valid()
      modifies this, waiters`heap, waiters.all
      ensures Valid() && View() == PartitionModel.MakeUnassigned(old(View()))
      ensures forall w :: w in waiters.all ==>
                            w.closed && w.err == if old(w.closed) then old(w.err) else Some(NotLeader)
    {
      StepDown(-1);
    }

    method Close()
      requires Valid()
      modifies this`closed, waiters`heap, waiters.all
      ensures Valid() && View() == old(View()).(closed := true)
      ensures forall w :: w in waiters.all ==>
                            w.closed && w.err == if old(w.closed) then old(w.err) else Some(StorageFailed)
    {
      closed := true;
      waiters.FailAll(StorageFailed);
    }

    method UpdateLeaderIsr(epoch: int, ids: seq<int>) returns (err: Option<Error>)
      requires Valid()
      modifies this, waiters`heap, waiters`reached, waiters.all
      ensures Valid() && Step(View(), err) == PartitionModel.UpdateLeaderIsr(old(View()), epoch, ids)
      ensures forall w :: w in waiters.all ==>
                            && w.err == old(w.err)
                            && (w.closed <==> old(w.closed) || (err.None? && |isr| > 0 && w.requiredHw <= hw))
    {
      if !isLeader || leaderEpoch != epoch || leaderId != local { return Some(NotLeaderOrFollower); }
      isr := CarryLeos(isr, ids);
      MaybeAdvanceHw();
      err := None;
    }

    method UpdateFollowerLeo(id: int, leo: nat)
      requires Valid()
      modifies this, waiters`heap, waiters`reached, waiters.all
      ensures Valid() && View() == PartitionModel.UpdateFollowerLeo(old(View()), id, leo)
      ensures forall w :: w in waiters.all ==>
                            && w.err == old(w.err)
                            && (w.closed <==> old(w.closed) || (isLeader && |isr| > 0 && w.requiredHw <= hw))
    {
      isr := SetLeo(isr, id, leo);
      MaybeAdvanceHw();
    }

    /**
     Appends as leader. With full acknowledgement the request gets a waiter, which is already
     woken when the high watermark is where it waits for.
     */
    method AppendRaw(data: seq<Batch>, acks: int, maxMessageBytes: nat)
      returns (firstOffset: nat, err: Option<Error>, waiter: Option<Waiter>)
      requires Valid() && WellFormedData(data)
      modifies this, waiters, waiters.all
      ensures Valid()
      ensures acks in {ACKS_NONE, ACKS_LEADER, ACKS_ALL} ==>
                Step(View(), err) == PartitionModel.AppendRaw(old(View()), data, maxMessageBytes)
      ensures acks !in {ACKS_NONE, ACKS_LEADER, ACKS_ALL} ==> err.Some? && View() == old(View())
      ensures err.None? ==> firstOffset == old(View().End())
      ensures waiter.Some? <==> err.None? && acks == ACKS_ALL
      ensures waiter.Some? ==>
                && waiter.value.requiredHw == RequiredHw(firstOffset, data) && waiter.value in waiters.all
                && waiter.value.err.None? && (waiter.value.closed <==> |isr| > 0 && hw >= waiter.value.requiredHw)
      ensures waiter.Some? ==> (waiter.value.requiredHw == View().End() <==> Records(data) <= TWO_TO_32)
      ensures forall w :: w in old(waiters.all) ==>
                            && w.err == old(w.err)
                            && (w.closed <==> old(w.closed) || (err.None? && |isr| > 0 && w.requiredHw <= hw))
    {
      firstOffset, waiter := 0, None;
      if !isLeader { return 0, Some(NotLeaderOrFollower), None; }
      if closed { return 0, Some(PartitionClosed), None; }
      if |data| == 0 { return 0, Some(CorruptMessage), None; }
      if acks != ACKS_NONE && acks != ACKS_LEADER && acks != ACKS_ALL { return 0, Some(InvalidRequiredAcks), None; }
      var (appended, e) := AppendStamped(log, data, leaderEpoch, maxMessageBytes);
      if e.Some? { return 0, e, None; }
      RequiredIsLogEnd(log, data, leaderEpoch, maxMessageBytes);
      firstOffset := log.End();
      log := appended;
      if acks == ACKS_ALL {
        var w := new Waiter(RequiredHw(firstOffset, data));
        waiters.Push(w);
        waiter := Some(w);
      }
      MaybeAdvanceHw();
      err := None;
    }

    method AppendFromLeader(data: seq<Batch>, fetchEpoch: int, leaderHw: nat) returns (err: Option<Error>)
      requires Valid()
      modifies this
      ensures Valid() && Step(View(), err) == PartitionModel.AppendFromLeader(old(View()), data, fetchEpoch, leaderHw)
    {
      if closed { return Some(PartitionClosed); }
      if isLeader || leaderId < 0 || leaderId == local { return Some(NotLeaderOrFollower); }
      if fetchEpoch < leaderEpoch { return Some(FencedLeaderEpoch); }
      if fetchEpoch > leaderEpoch { return Some(UnknownLeaderEpoch); }
      if |data| > 0 {
        var (appended, e) := AppendReplica(log, data, fetchEpoch);
        if e.Some? { return e; }
        log := appended;
      }
      var candidate := leaderHw;
      if log.End() < candidate { candidate := log.End(); }
      if candidate > hw {
        hw := candidate;
        peak := if peak < hw then hw else peak;
      }
      err := None;
    }

    method TruncateTo(offset: nat) returns (err: Option<Error>)
      requires Valid()
      modifies this
      ensures Valid() && Step(View(), err) == PartitionModel.TruncateTo(old(View()), offset)
    {
      if isLeader { return Some(NotLeaderOrFollower); }
      var cut := Truncate(log, offset);
      if cut.Some? { log := cut.value; }
      if hw > log.End() { hw := log.End(); }
      err := if cut.Some? then None else Some(InvalidTruncation);
    }
  }

  // ----- Reconciliation with the leader -----

  /** One answer of the leader: truncate, and say whether to go on. */
  method ReconcileRound(p: Partition, answer: Answer) returns (outcome: Outcome)
    requires p.Valid() && !p.isLeader && p.hw <= p.log.End()
    modifies p
    ensures p.Valid() && RoundResult(p.log, outcome) == Round(old(p.log), answer)
    ensures p.View() == Trimmed(old(p.View()), p.log) && p.log.End() <= old(p.log.End())
  {
    if answer.Failed? || answer.epoch < 0 || answer.end < 0 { return Rejected; }
    var local := EndOffsetFor(p.log.cache, answer.epoch, p.log.End());
    var offset: nat := answer.end;
    if local.Some? && local.value.end < offset { offset := local.value.end; }
    if p.log.End() < offset { offset := p.log.End(); }
    if offset < p.log.End() {
      var err := p.TruncateTo(offset);
      if err.Some? { return Rejected; }
    }
    outcome := Verdict(local, answer.epoch);
  }

  /** Truncates a follower to what it shares with the leader, asking for one epoch after another. */
  method ReconcilePartition(p: Partition, ask: Oracle) returns (exit: Exit)
    requires p.Valid() && !p.isLeader && p.hw <= p.log.End()
    modifies p
    ensures p.Valid() && p.log == Reconcile(old(p.log), ask).log && exit == Reconcile(old(p.log), ask).exit
    ensures p.View() == Trimmed(old(p.View()), p.log)
  {
    if |p.log.cache| == 0 { return Agreed; }
    var epoch := p.log.cache[|p.log.cache| - 1].epoch;
    var attempts: nat := 0;
    ghost var round, goal, was := RoundWith(ask), Reconcile(p.log, ask), p.View();
    while attempts < MAX_ATTEMPTS
      invariant attempts <= MAX_ATTEMPTS && p.Valid()
      invariant Rounds(round, p.log, epoch, attempts) == goal
      invariant p.View() == Trimmed(was, p.log)
    {
      ghost var f := p.log;
      var outcome := ReconcileRound(p, ask(attempts, epoch));
      assert round(f, epoch, attempts) == RoundResult(p.log, outcome);
      if !outcome.Continue? { return ExitOf(outcome); }
      epoch := outcome.epoch;
      attempts := attempts + 1;
    }
    exit := NotConverged;
  }
}
