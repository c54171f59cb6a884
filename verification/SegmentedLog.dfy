/**
 The log of one partition: sealed segments, the active segment and the leader-epoch cache.
 Every operation is proved to do to the flat log what the partition model says.
 */
module SegmentedLog {
  import opened Batches
  import opened EpochCache
  import opened EpochMirror
  import opened PartitionModel
  import opened Reconciliation
  import opened Segments
  import opened SegmentLayout
  import opened SegmentPairs

  datatype Config = Config(maxSegmentBytes: nat, maxIndexBytes: nat, indexInterval: nat, maxMessageBytes: nat) {
    predicate Usable() { maxSegmentBytes > 0 && maxIndexBytes >= INDEX_ENTRY_SIZE }
  }

  /** The log with a run added to its end; none if its offsets would overflow. */
  function Extended(v: ReplicaLog, data: seq<Batch>, epoch: int, assign: bool): Option<ReplicaLog> {
    if v.End() + Records(data) > MAX_OFFSET then None
    else Some(v.(batches := v.batches + (if assign then Stamp(data, v.End(), epoch) else data)))
  }

  // ----- Which objects belong to a log -----

  ghost predicate Inside(p: SegmentPair, s: set<object>) {
    p in s && p.segment in s && p.index in s && p.index.slots in s
  }

  ghost predicate Outside(p: SegmentPair, s: set<object>) {
    p !in s && p.segment !in s && p.index !in s && p.index.slots !in s
  }

  ghost predicate Apart(p: SegmentPair, q: SegmentPair) {
    p != q && p.segment != q.segment && p.index != q.index && p.index.slots != q.index.slots
  }

  /** A sound pair that holds the given batches from `base` on. */
  ghost predicate Holds(p: SegmentPair, batches: seq<Batch>, base: nat, config: Config)
    reads p, p.segment, p.index, p.index.slots
  {
    && p.Valid() && p.segment.batches == batches && p.segment.baseOffset == base
    && p.segment.maxSize == config.maxSegmentBytes && p.index.maxBytes == config.maxIndexBytes
  }

  /** The segments of a log, their base offsets and the objects they are made of. */
  datatype Layout = Layout(pairs: seq<SegmentPair>, segs: seq<seq<Batch>>, bases: seq<nat>, repr: set<object>) {
    ghost predicate Shaped() {
      && |segs| == |pairs| == |bases|
      && (forall i :: 0 <= i < |pairs| ==> Inside(pairs[i], repr))
      && (forall i, j :: 0 <= i < j < |pairs| ==> Apart(pairs[i], pairs[j]))
    }

    /** Segment `t` ends after `k` batches and is the last one. */
    function Cut(t: nat, k: nat): Layout
      requires t < |segs| == |pairs| == |bases| && k <= |segs[t]|
    {
      Layout(pairs[..t + 1], segs[..t] + [segs[t][..k]], bases[..t + 1], repr)
    }
  }

  ghost predicate Sound(lay: Layout, config: Config)
    reads lay.repr
  {
    && lay.Shaped()
    && (forall i :: 0 <= i < |lay.pairs| ==> Holds(lay.pairs[i], lay.segs[i], lay.bases[i], config))
    && Laid(lay.segs, lay.bases)
  }

  /** All pairs but pair `n`, which lives outside `rest`, hold their segments. */
  ghost predicate OthersHold(lay: Layout, n: nat, config: Config, rest: set<object>)
    requires |lay.pairs| == |lay.segs| == |lay.bases|
    reads rest
  {
    forall i :: 0 <= i < |lay.pairs| && i != n ==>
                  Inside(lay.pairs[i], rest) && Holds(lay.pairs[i], lay.segs[i], lay.bases[i], config)
  }

  lemma {:induction false} SoundFirst(p: SegmentPair, config: Config, repr: set<object>)
    requires Holds(p, [], 0, config) && Inside(p, repr)
    ensures Sound(Layout([p], [[]], [0], repr), config)
    ensures Flatten([[]]) == []
  {
    var none: seq<seq<Batch>> := [[]];
    assert none[..0] == [];
  }

  /** An empty segment at the end of a sound log. */
  lemma {:induction false} SoundRoll(lay: Layout, config: Config, p: SegmentPair, next: nat, repr: set<object>)
    requires Sound(lay, config) && Outside(p, lay.repr) && Holds(p, [], next, config)
    requires lay.repr <= repr && Inside(p, repr)
    requires Continues(lay.segs[|lay.segs| - 1], lay.bases[|lay.segs| - 1], next)
    ensures Sound(Layout(lay.pairs + [p], lay.segs + [[]], lay.bases + [next], repr), config)
    ensures Flatten(lay.segs + [[]]) == Flatten(lay.segs)
  {
    LaidRoll(lay.segs, lay.bases, next);
  }

  /** One pair of a sound log, and the objects of the others. */
  lemma {:induction false} SoundSplit(lay: Layout, n: nat, config: Config) returns (rest: set<object>)
    requires Sound(lay, config) && n < |lay.pairs|
    ensures Holds(lay.pairs[n], lay.segs[n], lay.bases[n], config) && Inside(lay.pairs[n], lay.repr)
    ensures OthersHold(lay, n, config, rest) && Outside(lay.pairs[n], rest)
  {
    var p := lay.pairs[n];
    rest := lay.repr - {p, p.segment, p.index, p.index.slots};
    forall i | 0 <= i < |lay.pairs| && i != n ensures Inside(lay.pairs[i], rest) {
      assert Inside(lay.pairs[i], lay.repr);
      assert if i < n then Apart(lay.pairs[i], p) else Apart(p, lay.pairs[i]);
    }
  }

  /** Changing one pair keeps the log sound when the new segment still fits its neighbours. */
  lemma {:induction false} SoundUpdate(lay: Layout, config: Config, n: nat, batches: seq<Batch>, rest: set<object>)
    requires lay.Shaped() && n < |lay.pairs|
    requires OthersHold(lay, n, config, rest) && Holds(lay.pairs[n], batches, lay.bases[n], config)
    requires Laid(lay.segs[n := batches], lay.bases)
    ensures Sound(lay.(segs := lay.segs[n := batches]), config)
  {
  }

  /** Cutting one pair and dropping the later ones cuts the log. */
  lemma {:induction false} SoundCut(lay: Layout, config: Config, t: nat, k: nat, rest: set<object>)
    requires lay.Shaped() && Laid(lay.segs, lay.bases) && t < |lay.pairs| && k <= |lay.segs[t]|
    requires OthersHold(lay, t, config, rest) && Holds(lay.pairs[t], lay.segs[t][..k], lay.bases[t], config)
    ensures var o := EndOffset(lay.segs[t][..k], lay.bases[t]);
            && Sound(lay.Cut(t, k), config)
            && Flatten(lay.Cut(t, k).segs) == UpTo(Flatten(lay.segs), o) && IsBoundary(Flatten(lay.segs), o)
  {
    LaidCut(lay.segs, lay.bases, t, k);
  }

  /** Adding batches to the last segment adds them to the log. */
  lemma {:induction false} SoundAppend(lay: Layout, config: Config, more: seq<Batch>, rest: set<object>)
    requires lay.Shaped() && Laid(lay.segs, lay.bases)
    requires OthersHold(lay, |lay.pairs| - 1, config, rest)
    requires var n := |lay.pairs| - 1; Holds(lay.pairs[n], lay.segs[n] + more, lay.bases[n], config)
    ensures var n := |lay.pairs| - 1;
            var l := lay.(segs := lay.segs[n := lay.segs[n] + more]);
            Sound(l, config) && Flatten(l.segs) == Flatten(lay.segs) + more
  {
    var n := |lay.pairs| - 1;
    LaidAppend(lay.segs, lay.bases, more);
    FlattenAppend(lay.segs, more);
    SoundUpdate(lay, config, n, lay.segs[n] + more, rest);
  }

  // ----- Validation of replica batches -----

  /** What scanning a received buffer guarantees: 63-bit base offsets and 31-bit record counts. */
  predicate Scanned(data: seq<Batch>) {
    forall i :: 0 <= i < |data| ==>
                  data[i].WellFormed() && data[i].base < TWO_TO_63 && data[i].count < TWO_TO_31
  }

  method AcceptedBatches(data: seq<Batch>, fetchEpoch: int) returns (accepted: seq<Batch>)
    ensures accepted == Accepted(data, fetchEpoch)
  {
    accepted := data;
    var i := 0;
    while i < |data|
      invariant 0 <= i <= |Accepted(data, fetchEpoch)|
    {
      if data[i].epoch > fetchEpoch { return data[..i]; }
      i := i + 1;
    }
  }

  /** Checks that batches follow one another from `leo` on, and collects where their epochs start. */
  method CheckRun(data: seq<Batch>, leo: nat) returns (err: Option<Error>, transitions: seq<Entry>)
    ensures err.None? <==> OffsetsFollow(data, leo) && EpochsFollow(data)
    ensures err.Some? ==> err.value == FirstFault(data, leo)
    ensures err.None? ==> transitions == Runs(data)
  {
    err, transitions := None, [];
    var i := 0;
    while i < |data|
      invariant 0 <= i <= |data|
      invariant OffsetsFollow(data[..i], leo) && EpochsFollow(data[..i])
      invariant transitions == Runs(data[..i])
    {
      RunGrows(data, leo, i);
      var expected := if i == 0 then leo else data[i - 1].End();
      if data[i].base != expected { return Some(UnexpectedAppendOffset), []; }
      if i > 0 && data[i].epoch < data[i - 1].epoch { return Some(CorruptMessage), []; }
      if i == 0 || data[i].epoch != data[i - 1].epoch {
        transitions := transitions + [Entry(data[i].epoch, data[i].base)];
      }
      i := i + 1;
    }
    assert data[..i] == data;
  }

  /** What the next batch adds to a run that is in order so far. */
  lemma {:induction false} RunGrows(data: seq<Batch>, leo: nat, i: nat)
    requires i < |data| && OffsetsFollow(data[..i], leo) && EpochsFollow(data[..i])
    ensures var expected := if i == 0 then leo else data[i - 1].End();
            var inOrder := i > 0 ==> data[i - 1].epoch <= data[i].epoch;
            && (OffsetsFollow(data[..i + 1], leo) <==> data[i].base == expected)
            && (EpochsFollow(data[..i + 1]) <==> inOrder)
            && (data[i].base != expected || !inOrder ==>
                  && !(OffsetsFollow(data, leo) && EpochsFollow(data))
                  && FirstFault(data, leo)
                    == if data[i].base != expected then UnexpectedAppendOffset else CorruptMessage)
    ensures Runs(data[..i + 1]) == Runs(data[..i])
         + if i == 0 || data[i].epoch != data[i - 1].epoch then [Entry(data[i].epoch, data[i].base)] else []
  {
    RunOrder(data, leo, i);
    RunsExtend(data[..i], data[i]);
    assert data[..i] + [data[i]] == data[..i + 1];
    if !(OffsetsFollow(data[..i + 1], leo) && EpochsFollow(data[..i + 1])) { FaultStays(data, leo, i + 1); }
  }

  lemma {:induction false} RunOrder(data: seq<Batch>, leo: nat, i: nat)
    requires i < |data| && OffsetsFollow(data[..i], leo) && EpochsFollow(data[..i])
    ensures var expected := if i == 0 then leo else data[i - 1].End();
            var inOrder := i > 0 ==> data[i - 1].epoch <= data[i].epoch;
            && (OffsetsFollow(data[..i + 1], leo) <==> data[i].base == expected)
            && (EpochsFollow(data[..i + 1]) <==> inOrder)
            && (data[i].base != expected || !inOrder ==>
                  FirstFault(data[..i + 1], leo)
                  == if data[i].base != expected then UnexpectedAppendOffset else CorruptMessage)
  {
    assert data[..i + 1][..i] == data[..i];
  }

  /** A fault in a prefix is the first fault of the whole. */
  lemma {:induction false} FaultStays(data: seq<Batch>, leo: nat, i: nat)
    requires i <= |data| && !(OffsetsFollow(data[..i], leo) && EpochsFollow(data[..i]))
    ensures !(OffsetsFollow(data, leo) && EpochsFollow(data))
    ensures FirstFault(data, leo) == FirstFault(data[..i], leo)
  {
    if i == |data| {
      assert data[..i] == data;
    } else {
      var n := |data| - 1;
      assert data[..n][..i] == data[..i];
      FaultStays(data[..n], leo, i);
    }
  }

  /** The first run starts at the first batch, and runs have no other epochs than batches. */
  lemma {:induction false} RunsEpochs(data: seq<Batch>)
    requires |data| > 0
    ensures |Runs(data)| > 0 && Runs(data)[0].epoch == data[0].epoch
    ensures (forall i :: 0 <= i < |data| ==> data[i].epoch >= 0) ==>
              forall j :: 0 <= j < |Runs(data)| ==> Runs(data)[j].epoch >= 0
  {
    var n := |data| - 1;
    if n > 0 { RunsEpochs(data[..n]); }
  }

  /** In a run whose epochs follow, the first epoch decides whether all are assignable. */
  lemma {:induction false} RunsAssignable(data: seq<Batch>)
    requires |data| > 0 && EpochsFollow(data)
    ensures |Runs(data)| > 0 && Runs(data)[0].epoch == data[0].epoch
    ensures data[0].epoch >= 0 ==> forall j :: 0 <= j < |Runs(data)| ==> Runs(data)[j].epoch >= 0
  {
    RunsEpochs(data);
    if data[0].epoch >= 0 {
      EpochsFollowNonDecreasing(data);
      forall i | 0 <= i < |data| ensures data[i].epoch >= 0 { NonDecreasingAt(data, 0, i); }
    }
  }

  /** Scanned batches that follow one another never overflow the offset. */
  lemma {:induction false} CheckedFits(data: seq<Batch>, leo: nat)
    requires Scanned(data) && |data| > 0 && OffsetsFollow(data, leo) && EpochsFollow(data)
    ensures WellFormedData(data) && Contiguous(data, leo) && leo + Records(data) <= MAX_OFFSET
    ensures |Runs(data)| > 0 && Runs(data)[0].epoch == data[0].epoch
    ensures data[0].epoch >= 0 ==> forall j :: 0 <= j < |Runs(data)| ==> Runs(data)[j].epoch >= 0
  {
    RunsAssignable(data);
    OffsetsFollowLog(data, leo);
    ContiguousRecords(data, leo);
    assert data[|data| - 1].base < TWO_TO_63;
  }

  method TooLarge(data: seq<Batch>, maxBytes: nat) returns (found: bool)
    ensures found <==> AnyTooLarge(data, maxBytes)
  {
    var i := 0;
    while i < |data|
      invariant 0 <= i <= |data|
      invariant forall j :: 0 <= j < i ==> data[j].size <= maxBytes
    {
      if data[i].size > maxBytes { return true; }
      i := i + 1;
    }
    found := false;
  }

  datatype TruncateError = PastEnd | NotBoundary | IndexFull

  /** A byte range of a segment file, and the first offset after it. */
  datatype RawRange = RawRange(segment: Segment, start: nat, end: nat, fetchedUpTo: nat)

  /** Opens an empty segment and its index. */
  method NewPair(base: nat, config: Config) returns (p: SegmentPair, ghost objects: set<object>)
    requires config.Usable()
    ensures Holds(p, [], base, config)
    ensures Inside(p, objects) && fresh(objects)
    ensures p.segment.currentSize == 0 && p.index.count < p.index.slots.Length
  {
    p := new SegmentPair(base, config.maxSegmentBytes, config.maxIndexBytes);
    objects := {p, p.segment, p.index, p.index.slots};
  }

  /** Where a run went: its first offset, and how many records it has. */
  datatype Placed = Placed(first: nat, total: nat)

  /** What an append adds: the run, or nothing when it does not fit or its offsets overflow. */
  ghost predicate AppendedAs(data: seq<Batch>, epoch: int, assign: bool, leo: nat, err: Option<AppendError>,
                             placed: Placed, more: seq<Batch>) {
    && (err.Some? ==> more == [] && (err.value == SegmentFull || leo + Records(data) > MAX_OFFSET))
    && (err.None? ==>
          && leo + Records(data) <= MAX_OFFSET && more == (if assign then Stamp(data, leo, epoch) else data)
          && placed == Placed(leo, Records(data)))
  }

  /** Appends to one pair of a layout; the others are not touched. */
  method AppendTo(p: SegmentPair, data: seq<Batch>, epoch: int, assign: bool, config: Config, ghost l: Layout,
                  ghost n: nat, ghost rest: set<object>)
    returns (err: Option<AppendError>, placed: Placed, ghost more: seq<Batch>)
    requires |l.pairs| == |l.segs| == |l.bases| && n < |l.pairs| && l.pairs[n] == p
    requires Holds(p, l.segs[n], l.bases[n], config) && OthersHold(l, n, config, rest) && Outside(p, rest)
    requires WellFormedData(data) && |data| > 0 && p.index.count < p.index.slots.Length
    requires !assign ==> Contiguous(data, p.segment.nextOffset)
    modifies p, p.segment, p.index, p.index.slots
    ensures Holds(p, l.segs[n] + more, l.bases[n], config) && OthersHold(l, n, config, rest)
    ensures AppendedAs(data, epoch, assign, old(p.segment.nextOffset), err, placed, more)
    ensures err.Some? ==> p.segment.currentSize == old(p.segment.currentSize)
    ensures err.Some? && err.value == SegmentFull ==> p.segment.currentSize > 0
  {
    var first, total;
    first, total, err := p.Append(data, epoch, assign, config.indexInterval);
    placed := Placed(first, total);
    more := if err.Some? then [] else if assign then Stamp(data, old(p.segment.nextOffset), epoch) else data;
    assert p.segment.batches == l.segs[n] + more;
  }

  /** Bisection over sealed segments that all start before an offset behind them. */
  method SearchSealed(sealed: seq<SegmentPair>, offset: nat, ghost bases: seq<nat>) returns (t: nat)
    requires |bases| == |sealed| + 1 && bases[0] <= offset < bases[|sealed|]
    requires forall i :: 0 <= i < |sealed| ==> sealed[i].segment.baseOffset == bases[i]
    ensures t < |sealed| && Covers(bases, t, offset)
  {
    var i, j := 0, |sealed|;
    while i < j
      invariant 0 <= i <= j <= |sealed|
      invariant i > 0 ==> bases[i - 1] <= offset
      invariant offset < bases[j]
    {
      var h := (i + j) / 2;
      if sealed[h].segment.baseOffset > offset { j := h; } else { i := h + 1; }
    }
    t := i - 1;
  }

  /** Reads from the segment that covers an offset. */
  method ReadCovered(p: SegmentPair, offset: nat, maxBytes: int, ghost segs: seq<seq<Batch>>, ghost bases: seq<nat>,
                     ghost t: nat)
    returns (r: Option<RawRange>, ghost g: nat, ghost k: nat, ghost j: nat)
    requires Laid(segs, bases) && t < |segs| && Covers(bases, t, offset) && p.Valid()
    requires p.segment.batches == segs[t] && p.segment.baseOffset == bases[t]
    ensures r.Some? ==> offset < EndOffset(segs[t], bases[t])
    ensures offset < EndOffset(segs[t], bases[t]) <= bases[t] + TWO_TO_32 ==> r.Some?
    ensures r.Some? ==>
              && r.value.segment == p.segment
              && Taken(segs[t], bases[t], maxBytes, k, j, r.value.start, r.value.end, r.value.fetchedUpTo)
              && Slice(Flatten(segs), offset, segs[t], bases[t], k, j, g)
              && FullRange(Flatten(segs), bases, maxBytes, g, j - k)
  {
    g := CountUpTo(Flatten(segs), offset);
    var found, start, end, upTo;
    found, start, end, upTo, k, j := p.ReadFrom(offset, maxBytes);
    if !found { return None, g, k, j; }
    RangeRead(segs, bases, t, k, j, offset, maxBytes, start, end, upTo);
    r := Some(RawRange(p.segment, start, end, upTo));
  }

  class Log {
    const config: Config
    const cache: LeaderEpochCache
    var sealed: seq<SegmentPair>
    var active: SegmentPair
    ghost var lay: Layout

    ghost predicate Valid()
      reads this, cache, lay.repr
    {
      && config.Usable() && cache.Valid() && this !in lay.repr && cache !in lay.repr
      && lay.pairs == sealed + [active]
      && Sound(lay, config)
    }

    /** The flat log and epoch cache this log stands for, if its segments and indexes are sound. */
    ghost function View(): Option<ReplicaLog>
      reads this, cache, lay.repr
    {
      if Valid() then Some(ReplicaLog(Flatten(lay.segs), cache.entries)) else None
    }

    constructor (config: Config)
      requires config.Usable()
      ensures View() == Some(ReplicaLog([], [])) && fresh(lay.repr) && fresh(cache) && this.config == config
    {
      this.config := config;
      cache := new LeaderEpochCache();
      var p;
      ghost var objects;
      p, objects := NewPair(0, config);
      sealed, active := [], p;
      SoundFirst(p, config, objects);
      lay := Layout([p], [[]], [0], objects);
      new;
      Install([], p, lay, []);
    }

    /** The active pair holds the last segment. */
    lemma {:induction false} ActiveHolds() returns (rest: set<object>)
      requires View().Some?
      ensures var n := |sealed|;
              && lay.Shaped() && |lay.pairs| == n + 1 && lay.pairs[n] == active
              && Holds(active, lay.segs[n], lay.bases[n], config)
              && OthersHold(lay, n, config, rest) && Outside(active, rest)
              && Inside(active, lay.repr)
              && active.segment.nextOffset == EndOffset(lay.segs[n], lay.bases[n]) == View().value.End()
              && (active.segment.currentSize == 0 <==> |lay.segs[n]| == 0)
    {
      var n := |sealed|;
      rest := SoundSplit(lay, n, config);
      FlattenLog(lay.segs, lay.bases);
      BytesMonotone(lay.segs[n], 0, |lay.segs[n]|);
      BytesAll(lay.segs[n]);
    }

    method NextOffset() returns (o: nat)
      requires View().Some?
      ensures o == View().value.End()
    {
      ghost var rest := ActiveHolds();
      o := active.segment.nextOffset;
    }

    method AssignLeaderEpoch(epoch: int, start: nat) returns (ok: bool)
      requires View().Some?
      modifies cache
      ensures ok == (epoch >= 0)
      ensures View() == if ok then Some(old(View().value).(cache := Assigned(old(cache.entries), epoch, start)))
                        else old(View())
    {
      var changed;
      changed, ok := cache.Assign(epoch, start);
    }

    method EndOffsetForLeaderEpoch(epoch: int) returns (r: Option<EpochEnd>)
      requires View().Some?
      ensures r == EndOffsetFor(View().value.cache, epoch, View().value.End())
    {
      var leo := NextOffset();
      r := cache.EndOffset(epoch, leo);
    }

    /** Publishes a new list of segments. */
    method Install(pairs: seq<SegmentPair>, last: SegmentPair, ghost l: Layout, ghost batches: seq<Batch>)
      requires config.Usable() && cache.Valid() && this !in l.repr && cache !in l.repr
      requires l.pairs == pairs + [last] && Sound(l, config) && Flatten(l.segs) == batches
      modifies this
      ensures View() == Some(ReplicaLog(batches, cache.entries))
      ensures sealed == pairs && active == last && lay == l
    {
      sealed, active := pairs, last;
      lay := l;
    }

    /** Seals the active segment; the new one continues it. */
    method Seal(p: SegmentPair, ghost repr: set<object>)
      requires View().Some? && active.segment.currentSize > 0
      requires Holds(p, [], active.segment.nextOffset, config) && Outside(p, lay.repr)
      requires lay.repr <= repr && Inside(p, repr) && this !in repr && cache !in repr
      modifies this
      ensures View() == old(View()) && active == p && lay.repr == repr
    {
      ghost var rest := ActiveHolds();
      ghost var next := active.segment.nextOffset;
      SoundRoll(lay, config, p, next, repr);
      Install(sealed + [active], p, Layout(lay.pairs + [p], lay.segs + [[]], lay.bases + [next], repr),
              Flatten(lay.segs));
    }

    /** Seals the active segment and starts an empty one at the log end. */
    method Roll()
      requires View().Some? && active.segment.currentSize > 0
      modifies this
      ensures View() == old(View())
      ensures forall o :: o in lay.repr ==> o in old(lay.repr) || fresh(o)
      ensures active.segment.currentSize == 0 && active.index.count < active.index.slots.Length
      ensures fresh(active) && fresh(active.segment) && fresh(active.index) && fresh(active.index.slots)
    {
      var p;
      ghost var objects;
      p, objects := NewPair(active.segment.nextOffset, config);
      Seal(p, lay.repr + objects);
    }

    /** Appends a run to the active segment: all of it, or nothing. */
    method AppendActive(data: seq<Batch>, epoch: int, assign: bool)
      returns (err: Option<AppendError>, placed: Placed)
      requires View().Some? && WellFormedData(data) && |data| > 0 && active.index.count < active.index.slots.Length
      requires !assign ==> Contiguous(data, View().value.End())
      modifies this, active, active.segment, active.index, active.index.slots
      ensures active == old(active) && sealed == old(sealed) && lay.repr == old(lay.repr)
      ensures View().Some?
      ensures err.Some? && err.value == SegmentFull ==>
                View() == old(View()) && active.segment.currentSize == old(active.segment.currentSize) > 0
      ensures err.Some? && err.value != SegmentFull ==>
                View() == old(View()) && Extended(View().value, data, epoch, assign).None?
      ensures err.None? ==>
                && View() == Extended(old(View().value), data, epoch, assign)
                && placed == Placed(old(View().value.End()), Records(data))
    {
      ghost var v := View().value;
      ghost var more;
      err, placed, more := AppendPair(data, epoch, assign);
      assert err.Some? ==> v.batches + more == v.batches;
    }

    method AppendPair(data: seq<Batch>, epoch: int, assign: bool)
      returns (err: Option<AppendError>, placed: Placed, ghost more: seq<Batch>)
      requires View().Some? && WellFormedData(data) && |data| > 0 && active.index.count < active.index.slots.Length
      requires !assign ==> Contiguous(data, View().value.End())
      modifies this, active, active.segment, active.index, active.index.slots
      ensures active == old(active) && sealed == old(sealed) && lay.repr == old(lay.repr)
      ensures View() == Some(ReplicaLog(old(View().value.batches) + more, old(View().value.cache)))
      ensures AppendedAs(data, epoch, assign, Leo(old(View().value.batches)), err, placed, more)
      ensures err.Some? ==> active.segment.currentSize == old(active.segment.currentSize)
      ensures err.Some? && err.value == SegmentFull ==> active.segment.currentSize > 0
    {
      ghost var rest := ActiveHolds();
      ghost var n, l, bs, entries := |sealed|, lay, Flatten(lay.segs), cache.entries;
      assert View() == Some(ReplicaLog(bs, entries));
      err, placed, more := AppendTo(active, data, epoch, assign, config, l, n, rest);
      Regrow(l, more, rest, bs);
    }

    /** Records that the active pair holds `more` batches at the end. */
    method Regrow(ghost l: Layout, ghost more: seq<Batch>, ghost rest: set<object>, ghost bs: seq<Batch>)
      requires config.Usable() && cache.Valid() && this !in l.repr && cache !in l.repr
      requires l.pairs == sealed + [active] && l.Shaped() && Laid(l.segs, l.bases) && Flatten(l.segs) == bs
      requires OthersHold(l, |sealed|, config, rest)
      requires Holds(active, l.segs[|sealed|] + more, l.bases[|sealed|], config)
      modifies this
      ensures View() == Some(ReplicaLog(bs + more, cache.entries))
      ensures sealed == old(sealed) && active == old(active) && lay.repr == l.repr
    {
      ghost var n := |sealed|;
      SoundAppend(l, config, more, rest);
      Install(sealed, active, l.(segs := l.segs[n := l.segs[n] + more]), bs + more);
    }

    lemma {:induction false} ActiveOwned()
      requires View().Some?
      ensures Inside(active, lay.repr)
    {
      var rest := ActiveHolds();
    }

    lemma {:induction false} ActiveRoom()
      requires View().Some?
      ensures active.segment.IsFull() || active.index.IsFull() ==> active.segment.currentSize > 0
      ensures !active.index.IsFull() ==> active.index.count < active.index.slots.Length
    {
      var rest := ActiveHolds();
      if active.index.IsFull() { assert active.marks[0] < |active.segment.batches|; }
    }

    /** Rolls when the active segment or its index is full. */
    method MakeRoom()
      requires View().Some?
      modifies this
      ensures View() == old(View())
      ensures forall o :: o in lay.repr ==> o in old(lay.repr) || fresh(o)
      ensures active.index.count < active.index.slots.Length
    {
      ActiveRoom();
      if active.segment.IsFull() || active.index.IsFull() { Roll(); }
    }

    /** Appends a run to a new segment. */
    method AppendAfterRoll(data: seq<Batch>, epoch: int, assign: bool) returns (ok: bool, placed: Placed)
      requires View().Some? && WellFormedData(data) && |data| > 0 && active.segment.currentSize > 0
      requires !assign ==> Contiguous(data, View().value.End())
      modifies this
      ensures forall o :: o in lay.repr ==> o in old(lay.repr) || fresh(o)
      ensures View().Some?
      ensures ok ==> placed == Placed(old(View().value.End()), Records(data))
      ensures if ok then View() == Extended(old(View().value), data, epoch, assign)
              else View() == old(View()) && Extended(View().value, data, epoch, assign).None?
    {
      Roll();
      var err;
      err, placed := AppendActive(data, epoch, assign);
      ok := err.None?;
    }

    /** Appends a run to the active segment, or to a new one when it does not fit. */
    method AppendOrRoll(data: seq<Batch>, epoch: int, assign: bool) returns (ok: bool, placed: Placed)
      requires View().Some? && WellFormedData(data) && |data| > 0 && active.index.count < active.index.slots.Length
      requires !assign ==> Contiguous(data, View().value.End())
      modifies this, active, active.segment, active.index, active.index.slots
      ensures forall o :: o in lay.repr ==> o in old(lay.repr) || fresh(o)
      ensures View().Some?
      ensures ok ==> placed == Placed(old(View().value.End()), Records(data))
      ensures if ok then View() == Extended(old(View().value), data, epoch, assign)
              else View() == old(View()) && Extended(View().value, data, epoch, assign).None?
    {
      var err;
      err, placed := AppendActive(data, epoch, assign);
      ok := err.None?;
      if err.Some? && err.value == SegmentFull { ok, placed := AppendAfterRoll(data, epoch, assign); }
    }

    /** Appends a run, rolling first when the active segment or its index is full. */
    method AppendRun(data: seq<Batch>, epoch: int, assign: bool) returns (ok: bool, placed: Placed)
      requires View().Some? && WellFormedData(data) && |data| > 0
      requires !assign ==> Contiguous(data, View().value.End())
      modifies this, lay.repr
      ensures forall o :: o in lay.repr ==> o in old(lay.repr) || fresh(o)
      ensures View().Some?
      ensures ok ==> placed == Placed(old(View().value.End()), Records(data))
      ensures if ok then View() == Extended(old(View().value), data, epoch, assign)
              else View() == old(View()) && Extended(View().value, data, epoch, assign).None?
    {
      MakeRoom();
      ActiveOwned();
      ok, placed := AppendOrRoll(data, epoch, assign);
    }

    /** Appends as leader; the last offset is reported from the first one on, in 32 bits. */
    method AppendRaw(data: seq<Batch>, epoch: int)
      returns (baseOffset: nat, lastOffsetDelta: nat, err: Option<Error>)
      requires View().Some? && WellFormedData(data)
      modifies this, lay.repr
      ensures forall o :: o in lay.repr ==> o in old(lay.repr) || fresh(o)
      ensures (View(), err) == (
                var (v, e) := AppendStamped(old(View().value), data, epoch, config.maxMessageBytes); (Some(v), e))
      ensures err.None? ==>
                && baseOffset == old(View().value.End()) && lastOffsetDelta == LastOffsetDelta(data)
                && (baseOffset + lastOffsetDelta + 1 == View().value.End() <==> Records(data) <= TWO_TO_32)
    {
      baseOffset, lastOffsetDelta := 0, 0;
      ghost var v := View().value;
      if |data| == 0 { return 0, 0, Some(CorruptMessage); }
      var tooLarge := TooLarge(data, config.maxMessageBytes);
      if tooLarge { return 0, 0, Some(MessageTooLarge); }
      var ok, placed := AppendRun(data, epoch, true);
      if !ok { return 0, 0, Some(CorruptMessage); }
      RequiredIsLogEnd(v, data, epoch, config.maxMessageBytes);
      baseOffset, lastOffsetDelta, err := placed.first, (placed.total - 1) % TWO_TO_32, None;
    }

    /** Assigns epochs in order; a negative first epoch stops it at once. */
    method AssignEpochs(ts: seq<Entry>) returns (ok: bool)
      requires View().Some? && |ts| > 0 && (ts[0].epoch >= 0 ==> forall j :: 0 <= j < |ts| ==> ts[j].epoch >= 0)
      modifies cache
      ensures ok == (ts[0].epoch >= 0)
      ensures View() == if ok then Some(old(View().value).(cache := AssignAll(old(cache.entries), ts))) else old(View())
    {
      var i := 0;
      while i < |ts|
        invariant 0 <= i <= |ts| && (i > 0 ==> ts[0].epoch >= 0)
        invariant cache.Valid() && cache.entries == AssignAll(old(cache.entries), ts[..i])
      {
        var changed;
        assert ts[..i + 1][..i] == ts[..i];
        changed, ok := cache.Assign(ts[i].epoch, ts[i].start);
        if !ok {
          assert ts[..0] == [];
          return;
        }
        i := i + 1;
      }
      assert ts[..i] == ts;
      ok := true;
    }

    /** Assigns the epochs of checked batches, then appends them. */
    method AppendChecked(accepted: seq<Batch>, transitions: seq<Entry>) returns (ok: bool, records: nat)
      requires View().Some? && Scanned(accepted) && |accepted| > 0 && transitions == Runs(accepted)
      requires OffsetsFollow(accepted, View().value.End()) && EpochsFollow(accepted)
      modifies this, cache, lay.repr
      ensures forall o :: o in lay.repr ==> o in old(lay.repr) || fresh(o)
      ensures ok == (accepted[0].epoch >= 0) && records == if ok then Records(accepted) else 0
      ensures View() == if ok then
                          var v := old(View().value);
                          Some(ReplicaLog(v.batches + accepted, AssignAll(v.cache, Runs(accepted))))
                        else old(View())
    {
      CheckedFits(accepted, View().value.End());
      ok := AssignEpochs(transitions);
      records := 0;
      if ok {
        var placed;
        ok, placed := AppendRun(accepted, 0, false);
        records := placed.total;
      }
    }

    method AppendReplicaRaw(data: seq<Batch>, fetchEpoch: int) returns (acceptedRecords: nat, err: Option<Error>)
      requires View().Some? && Scanned(data)
      modifies this, cache, lay.repr
      ensures forall o :: o in lay.repr ==> o in old(lay.repr) || fresh(o)
      ensures (View(), err) == (
                var (v, e) := AppendReplica(old(View().value), data, fetchEpoch); (Some(v), e))
      ensures acceptedRecords == Records(Added(old(View().value), data, fetchEpoch))
    {
      acceptedRecords := 0;
      if |data| == 0 { return 0, Some(CorruptMessage); }
      var accepted := AcceptedBatches(data, fetchEpoch);
      if |accepted| == 0 { return 0, None; }
      var leo := NextOffset();
      var transitions;
      err, transitions := CheckRun(accepted, leo);
      if err.Some? { return; }
      var ok;
      ok, acceptedRecords := AppendChecked(accepted, transitions);
      err := if ok then None else Some(InvalidLeaderEpoch);
    }

    /** The segment whose offsets include `offset`: the active one or, by bisection, a sealed one. */
    method FindSegment(offset: nat) returns (t: nat, p: SegmentPair)
      requires View().Some?
      ensures t < |lay.pairs| && p == lay.pairs[t] && Covers(lay.bases, t, offset)
    {
      BasesAre(lay, config);
      if offset >= active.segment.baseOffset { return |sealed|, active; }
      t := SearchSealed(sealed, offset, lay.bases);
      p := sealed[t];
    }

    /** Cuts one segment after `k` batches, makes it the active one and drops the later ones. */
    method CutPair(t: nat, p: SegmentPair, position: nat, offset: nat, ghost k: nat) returns (ok: bool)
      requires View().Some? && t < |lay.pairs| && p == lay.pairs[t] && k <= |lay.segs[t]|
      requires position == Bytes(lay.segs[t][..k]) && offset == EndOffset(lay.segs[t][..k], lay.bases[t])
      modifies this, p, p.segment, p.index, p.index.slots
      ensures ok <==>
              |Rebuilt(old(lay.segs[t])[..k], config.indexInterval).marks| <= config.maxIndexBytes / INDEX_ENTRY_SIZE
      ensures ok ==> lay.repr == old(lay.repr) && IsBoundary(old(View().value.batches), offset)
      ensures ok ==> View() == Some(old(View().value).(batches := UpTo(old(View().value.batches), offset)))
    {
      ghost var rest := SoundSplit(lay, t, config);
      ghost var l, bs := lay, Flatten(lay.segs);
      ok := p.Truncate(position, offset, config.indexInterval, k);
      if ok {
        Recut(l, t, k, rest, p, offset, bs);
      }
    }

    /** Records that pair `t` is the last one and ends after `k` batches. */
    method Recut(ghost l: Layout, t: nat, ghost k: nat, ghost rest: set<object>, p: SegmentPair, ghost offset: nat,
                 ghost bs: seq<Batch>)
      requires config.Usable() && cache.Valid() && this !in l.repr && cache !in l.repr
      requires l.pairs == sealed + [active] && l.Shaped() && Laid(l.segs, l.bases) && Flatten(l.segs) == bs
      requires t < |l.pairs| && p == l.pairs[t] && k <= |l.segs[t]| && offset == EndOffset(l.segs[t][..k], l.bases[t])
      requires OthersHold(l, t, config, rest) && Holds(p, l.segs[t][..k], l.bases[t], config)
      modifies this
      ensures View() == Some(ReplicaLog(UpTo(bs, offset), cache.entries)) && IsBoundary(bs, offset)
      ensures lay.repr == l.repr
    {
      SoundCut(l, config, t, k, rest);
      TakeLast(sealed, active, t);
      Install(sealed[..t], p, l.Cut(t, k), UpTo(bs, offset));
    }

    /** The segment and file position at which to cut. */
    method FindCut(offset: nat) returns (t: nat, p: SegmentPair, position: Option<nat>, ghost k: nat)
      requires View().Some? && offset < View().value.End()
      ensures Laid(lay.segs, lay.bases) && |lay.segs| == |lay.pairs|
      ensures t < |lay.pairs| && p == lay.pairs[t] && Inside(p, lay.repr)
      ensures position.None? ==>
                k < |lay.segs[t]| && lay.segs[t][k].base < offset < lay.segs[t][k].End()
      ensures position.Some? ==>
                && k <= |lay.segs[t]| && position.value == Bytes(lay.segs[t][..k])
                && offset == EndOffset(lay.segs[t][..k], lay.bases[t])
    {
      t, p := FindSegment(offset);
      SegmentSpan(t, offset);
      position, k := p.segment.FindTruncationPosition(offset);
    }

    /** Physical truncation to an offset below the log end. */
    method TruncateSegments(offset: nat) returns (err: Option<TruncateError>, ghost cut: seq<Batch>)
      requires View().Some? && offset < View().value.End()
      modifies this, lay.repr
      ensures err == Some(NotBoundary) <==> !IsBoundary(old(View().value.batches), offset)
      ensures err == Some(NotBoundary) ==> View() == old(View()) && lay.repr == old(lay.repr)
      ensures err == Some(IndexFull) ==>
                && IsTail(cut, UpTo(old(View().value.batches), offset))
                && |Rebuilt(cut, config.indexInterval).marks| > config.maxIndexBytes / INDEX_ENTRY_SIZE
      ensures err.None? ==> lay.repr == old(lay.repr)
      ensures err.None? ==> View() == Some(old(View().value).(batches := UpTo(old(View().value.batches), offset)))
      ensures err.Some? ==> err.value.NotBoundary? || err.value.IndexFull?
    {
      cut := [];
      var t, p, position;
      ghost var k;
      t, p, position, k := FindCut(offset);
      if position.None? {
        InsideLaid(lay.segs, lay.bases, t, k, offset);
        return Some(NotBoundary), cut;
      }
      cut := lay.segs[t][..k];
      CutIsTail(lay.segs, lay.bases, t, k);
      var ok := CutPair(t, p, position.value, offset, k);
      err := if ok then None else Some(IndexFull);
    }

    /** The covering segment holds its batches, and the offset if the log does. */
    lemma {:induction false} SegmentSpan(t: nat, offset: nat)
      requires View().Some? && t < |lay.pairs| && |lay.bases| == |lay.pairs| && Covers(lay.bases, t, offset)
      ensures |lay.segs| == |lay.pairs| && Laid(lay.segs, lay.bases) && Inside(lay.pairs[t], lay.repr)
      ensures Holds(lay.pairs[t], lay.segs[t], lay.bases[t], config)
      ensures offset < View().value.End() <==> offset < EndOffset(lay.segs[t], lay.bases[t])
    {
      CoverEnds(lay.segs, lay.bases, t, offset);
    }

    /**
     Truncates the log and the epoch cache. Fails without effect past the end or inside a
     batch; fails for good when the rebuilt index does not fit.
     */
    method TruncateTo(offset: nat) returns (err: Option<TruncateError>, ghost cut: seq<Batch>)
      requires View().Some?
      modifies this, cache, lay.repr
      ensures err == Some(PastEnd) <==> offset > old(View().value.End())
      ensures err == Some(PastEnd) || err == Some(NotBoundary) ==>
                View() == old(View()) && Truncate(View().value, offset).None?
      ensures err == Some(IndexFull) ==>
                && Truncate(old(View().value), offset).Some?
                && IsTail(cut, UpTo(old(View().value.batches), offset))
                && |Rebuilt(cut, config.indexInterval).marks| > config.maxIndexBytes / INDEX_ENTRY_SIZE
      ensures config.indexInterval > 0
              && Bytes(UpTo(old(View().value.batches), offset)) / config.indexInterval + 1
                 <= config.maxIndexBytes / INDEX_ENTRY_SIZE ==>
                err != Some(IndexFull)
      ensures err.None? ==> View() == Truncate(old(View().value), offset) && View().Some?
      ensures err != Some(IndexFull) ==> lay.repr == old(lay.repr)
    {
      var leo := NextOffset();
      cut := [];
      if offset > leo { return Some(PastEnd), cut; }
      err := None;
      if offset < leo {
        ghost var kept := UpTo(View().value.batches, offset);
        err, cut := TruncateSegments(offset);
        if err.Some? {
          if err.value.IndexFull? {
            TailFits(cut, kept, config.indexInterval, config.maxIndexBytes / INDEX_ENTRY_SIZE);
          }
          return;
        }
        var changed := TruncateCache(offset);
      }
    }

    /** No segment spans more offsets than an index slot can tell apart. */
    ghost predicate Narrow()
      reads this
    {
      && |lay.segs| == |lay.bases|
      && forall i :: 0 <= i < |lay.segs| ==> EndOffset(lay.segs[i], lay.bases[i]) <= lay.bases[i] + TWO_TO_32
    }

    /**
     The byte range from the batch that holds `offset` on, within its segment and within
     `maxBytes` unless the first batch alone is larger. It holds batches `k` to `j` of the
     segment, which are those of the log from batch `g` on.
     */
    method ReadRawRanges(offset: nat, maxBytes: int)
      returns (r: Option<RawRange>, ghost g: nat, ghost k: nat, ghost j: nat)
      requires View().Some?
      ensures r.Some? ==> offset < View().value.End()
      ensures Narrow() && offset < View().value.End() ==> r.Some?
      ensures r.Some? ==>
                && r.value.segment.Valid()
                && Taken(r.value.segment.batches, r.value.segment.baseOffset, maxBytes, k, j,
                         r.value.start, r.value.end, r.value.fetchedUpTo)
                && Slice(View().value.batches, offset, r.value.segment.batches, r.value.segment.baseOffset, k, j, g)
                && FullRange(View().value.batches, lay.bases, maxBytes, g, j - k)
    {
      var t, p := FindSegment(offset);
      SegmentSpan(t, offset);
      r, g, k, j := ReadCovered(p, offset, maxBytes, lay.segs, lay.bases, t);
    }

    method TruncateCache(offset: nat) returns (changed: bool)
      requires View().Some?
      modifies cache
      ensures View() == Some(old(View().value).(cache := StartsBelow(old(cache.entries), offset)))
    {
      changed := cache.TruncateFromEnd(offset);
    }
  }

  /** With enough slots for all that is kept, a truncation never finds the index too small. */
  lemma {:induction false} TailFits(cut: seq<Batch>, kept: seq<Batch>, interval: nat, slots: nat)
    requires IsTail(cut, kept)
    ensures interval > 0 && Bytes(kept) / interval + 1 <= slots ==> |Rebuilt(cut, interval).marks| <= slots
  {
    var head := kept[..|kept| - |cut|];
    assert kept == head + cut;
    BytesConcat(head, cut);
    if interval > 0 && Bytes(kept) / interval + 1 <= slots {
      SmallerQuotient(Bytes(cut), Bytes(kept), interval);
      RebuiltFits(cut, interval, slots);
    }
  }

  lemma {:induction false} SmallerQuotient(a: nat, b: nat, d: nat)
    requires a <= b && d > 0
    ensures a / d <= b / d
  {
    AtMostQuotient(a / d, d, b);
  }

  lemma {:induction false} TakeLast<T>(init: seq<T>, last: T, t: nat)
    requires t <= |init|
    ensures (init + [last])[..t + 1] == init[..t] + [(init + [last])[t]]
  {
  }

  lemma {:induction false} BasesAre(lay: Layout, config: Config)
    requires Sound(lay, config)
    ensures |lay.bases| == |lay.pairs| > 0 && lay.bases[0] == 0
    ensures forall i :: 0 <= i < |lay.pairs| ==> lay.pairs[i].segment.baseOffset == lay.bases[i]
  {
  }
}
