/**
 The epoch cache mirrors the log: it is the run-length compression of the epochs stored in
 the batches, plus at most one trailing entry at the log end for a leader epoch that has
 not written yet.
 */
module EpochMirror {
  import opened Batches
  import opened EpochCache

  /** One entry per run of batches with the same epoch. */
  function Runs(bs: seq<Batch>): seq<Entry> {
    if |bs| == 0 then []
    else
      var n := |bs| - 1;
      if n > 0 && bs[n].epoch == bs[n - 1].epoch then Runs(bs[..n])
      else Runs(bs[..n]) + [Entry(bs[n].epoch, bs[n].base)]
  }

  /** `es` is the compression of `bs`, or that plus a trailing entry at the log end. */
  ghost predicate Mirrors(es: seq<Entry>, bs: seq<Batch>) {
    && Increasing(es)
    && (es == Runs(bs)
        || (|es| > 0 && es[..|es| - 1] == Runs(bs) && es[|es| - 1].start == Leo(bs)))
  }

  // ----- Runs, batch by batch -----

  lemma {:induction false} RunsExtend(bs: seq<Batch>, b: Batch)
    ensures |bs| > 0 && bs[|bs| - 1].epoch == b.epoch ==> Runs(bs + [b]) == Runs(bs)
    ensures |bs| == 0 || bs[|bs| - 1].epoch != b.epoch ==>
              Runs(bs + [b]) == Runs(bs) + [Entry(b.epoch, b.base)]
  {
    assert (bs + [b])[..|bs|] == bs;
  }

  lemma {:induction false} RunsLast(bs: seq<Batch>)
    requires IsLog(bs) && |bs| > 0
    ensures |Runs(bs)| > 0
    ensures Runs(bs)[0].start == 0
    ensures Runs(bs)[|Runs(bs)| - 1].epoch == bs[|bs| - 1].epoch
    ensures Runs(bs)[|Runs(bs)| - 1].start <= bs[|bs| - 1].base
  {
    var n := |bs| - 1;
    if n > 0 {
      PrefixContiguous(bs, 0, n);
      RunsLast(bs[..n]);
      assert bs[..n][n - 1] == bs[n - 1];
    }
  }

  /** Each run starts at a batch of its epoch. */
  lemma {:induction false} RunStart(bs: seq<Batch>, j: nat) returns (i: nat)
    requires IsLog(bs) && j < |Runs(bs)|
    ensures i < |bs| && bs[i].base == Runs(bs)[j].start && bs[i].epoch == Runs(bs)[j].epoch
  {
    var n := |bs| - 1;
    PrefixContiguous(bs, 0, n);
    if j < |Runs(bs[..n])| {
      i := RunStart(bs[..n], j);
    } else {
      i := n;
    }
  }

  /** Each batch lies in a run of its epoch. */
  lemma {:induction false} RunOf(bs: seq<Batch>, i: nat) returns (j: nat)
    requires IsLog(bs) && i < |bs|
    ensures j < |Runs(bs)|
    ensures Runs(bs)[j].epoch == bs[i].epoch && Runs(bs)[j].start <= bs[i].base
    ensures j + 1 < |Runs(bs)| ==> bs[i].End() <= Runs(bs)[j + 1].start
  {
    var n := |bs| - 1;
    PrefixContiguous(bs, 0, n);
    if i == n {
      RunsLast(bs);
      j := |Runs(bs)| - 1;
    } else {
      j := RunOf(bs[..n], i);
      assert bs[..n][i] == bs[i];
      assert bs[i].End() <= bs[n].base by { OffsetsInOrder(bs, i, n); }
      assert bs[..n] + [bs[n]] == bs;
      RunsExtend(bs[..n], bs[n]);
    }
  }

  /** Epochs that never decrease compress to a strictly increasing cache, and conversely. */
  ghost predicate NonDecreasing(bs: seq<Batch>) {
    |bs| > 0 ==>
      var n := |bs| - 1;
      && (if n == 0 then 0 else bs[n - 1].epoch) <= bs[n].epoch
      && NonDecreasing(bs[..n])
  }

  lemma {:induction false} NonDecreasingAt(bs: seq<Batch>, i: nat, j: nat)
    requires NonDecreasing(bs) && i <= j < |bs|
    ensures 0 <= bs[i].epoch <= bs[j].epoch
  {
    var n := |bs| - 1;
    if j < n {
      NonDecreasingAt(bs[..n], i, j);
    } else if n > 0 {
      NonDecreasingAt(bs[..n], if i < n then i else n - 1, n - 1);
    }
  }

  lemma {:induction false} RunsIncreasingSnoc(init: seq<Batch>, b: Batch)
    requires IsLog(init) && Increasing(Runs(init)) && b.base == Leo(init) && b.epoch >= 0
    requires |init| > 0 ==> init[|init| - 1].epoch <= b.epoch
    ensures Increasing(Runs(init + [b]))
  {
    RunsExtend(init, b);
    if |init| > 0 {
      RunsLast(init);
      assert init[|init| - 1].WellFormed();
    }
    if |init| == 0 || init[|init| - 1].epoch != b.epoch {
      AppendIncreasing(Runs(init), Entry(b.epoch, b.base));
    }
  }

  lemma {:induction false} RunsIncreasing(bs: seq<Batch>)
    requires IsLog(bs) && NonDecreasing(bs)
    ensures Increasing(Runs(bs))
  {
    if |bs| > 0 {
      var n := |bs| - 1;
      PrefixContiguous(bs, 0, n);
      RunsIncreasing(bs[..n]);
      NonDecreasingAt(bs, n, n);
      RunsIncreasingSnoc(bs[..n], bs[n]);
      assert bs[..n] + [bs[n]] == bs;
    }
  }

  lemma {:induction false} IncreasingRunsNonDecreasing(bs: seq<Batch>)
    requires IsLog(bs) && Increasing(Runs(bs))
    ensures NonDecreasing(bs)
  {
    if |bs| > 0 {
      var n := |bs| - 1;
      assert bs[..n] + [bs[n]] == bs;
      RunsExtend(bs[..n], bs[n]);
      PrefixContiguous(bs, 0, n);
      PrefixIncreasing(Runs(bs), Runs(bs[..n]));
      IncreasingRunsNonDecreasing(bs[..n]);
      RunsLast(bs);
      if n > 0 {
        RunsLast(bs[..n]);
        assert bs[..n][n - 1] == bs[n - 1];
      }
    }
  }

  lemma {:induction false} OffsetsInOrder(bs: seq<Batch>, i: nat, k: nat)
    requires IsLog(bs) && i <= k < |bs|
    ensures bs[i].base <= bs[k].base && bs[k].base < bs[k].End()
    ensures i < k ==> bs[i].End() <= bs[k].base
  {
    EndOffsetMonotone(bs, 0, i, k);
    if i < k {
      EndOffsetMonotone(bs, 0, i + 1, k);
      assert bs[..i + 1][i] == bs[i];
    }
  }

  // ----- A mirroring cache, entry by entry -----

  lemma {:induction false} MirrorRuns(es: seq<Entry>, bs: seq<Batch>)
    requires Mirrors(es, bs)
    ensures Increasing(Runs(bs)) && Runs(bs) <= es && |es| <= |Runs(bs)| + 1
    ensures forall j :: 0 <= j < |Runs(bs)| ==> Runs(bs)[j] == es[j]
  {
    PrefixIncreasing(es, Runs(bs));
  }

  /** Each entry starts at a batch of its epoch, or at the log end. */
  lemma {:induction false} EntryStart(es: seq<Entry>, bs: seq<Batch>, j: nat) returns (i: nat)
    requires Mirrors(es, bs) && IsLog(bs) && j < |es|
    ensures i <= |bs| && es[j].start == Leo(bs[..i])
    ensures i < |bs| ==> bs[i].base == es[j].start && bs[i].epoch == es[j].epoch
    ensures i == |bs| ==> j == |es| - 1
  {
    MirrorRuns(es, bs);
    if j < |Runs(bs)| {
      i := RunStart(bs, j);
    } else {
      i := |bs|;
      assert bs[..i] == bs;
    }
  }

  /** Each batch lies in the range of an entry with its epoch. */
  lemma {:induction false} EntryOf(es: seq<Entry>, bs: seq<Batch>, i: nat) returns (j: nat)
    requires Mirrors(es, bs) && IsLog(bs) && i < |bs|
    ensures j < |es|
    ensures es[j].epoch == bs[i].epoch && es[j].start <= bs[i].base
    ensures bs[i].End() <= EntryEnd(es, j, Leo(bs))
  {
    MirrorRuns(es, bs);
    j := RunOf(bs, i);
    EndOffsetMonotone(bs, 0, i + 1, |bs|);
    assert bs[..i + 1][i] == bs[i] && bs[..|bs|] == bs;
  }

  /** A non-empty cache starts at the log start, and a non-empty log has a cache. */
  lemma {:induction false} MirrorFirst(es: seq<Entry>, bs: seq<Batch>)
    requires Mirrors(es, bs) && IsLog(bs)
    ensures |bs| > 0 ==> |es| > 0
    ensures |es| > 0 ==> es[0].start == 0
  {
    if |bs| > 0 {
      RunsLast(bs);
      MirrorRuns(es, bs);
    }
  }

  lemma {:induction false} MirrorLatest(es: seq<Entry>, bs: seq<Batch>, i: nat)
    requires Mirrors(es, bs) && IsLog(bs) && i < |bs|
    ensures |es| > 0 && 0 <= bs[i].epoch <= es[|es| - 1].epoch
  {
    var j := EntryOf(es, bs, i);
    IncreasingAt(es, j, |es| - 1);
  }

  lemma {:induction false} MirrorStarts(es: seq<Entry>, bs: seq<Batch>)
    requires Mirrors(es, bs) && IsLog(bs)
    ensures forall j :: 0 <= j < |es| ==> es[j].start <= Leo(bs)
  {
    forall j | 0 <= j < |es| ensures es[j].start <= Leo(bs) {
      var i := EntryStart(es, bs, j);
      EndOffsetMonotone(bs, 0, i, |bs|);
      assert bs[..|bs|] == bs;
    }
  }

  // ----- What keeps the mirror -----

  /** A leader that takes over at the log end, at an epoch that is not behind the cache. */
  lemma {:induction false} AssignKeepsMirror(es: seq<Entry>, bs: seq<Batch>, epoch: int)
    requires Mirrors(es, bs) && IsLog(bs) && epoch >= 0
    requires |es| > 0 ==> epoch >= es[|es| - 1].epoch
    ensures Mirrors(Assigned(es, epoch, Leo(bs)), bs)
    ensures Latest(Assigned(es, epoch, Leo(bs))) == Some(epoch)
    ensures !AlreadyAssigned(es, epoch, Leo(bs)) ==>
              Assigned(es, epoch, Leo(bs)) == Runs(bs) + [Entry(epoch, Leo(bs))]
  {
    var r := Runs(bs);
    MirrorRuns(es, bs);
    MirrorStarts(es, bs);
    AssignedIncreasing(es, epoch, Leo(bs));
    if !AlreadyAssigned(es, epoch, Leo(bs)) {
      if |bs| > 0 {
        RunsLast(bs);
        assert r[|r| - 1] == es[|r| - 1];
      }
      BelowIs(es, epoch, Leo(bs), |r|);
      assert es[..|r|] == r;
      var a := Assigned(es, epoch, Leo(bs));
      assert a == r + [Entry(epoch, Leo(bs))];
      assert a[..|a| - 1] == r;
    }
  }

  /** A leader whose epoch is the latest in the cache appends batches of that epoch. */
  lemma {:induction false} LeaderAppendKeepsMirror(es: seq<Entry>, bs: seq<Batch>, new_: seq<Batch>)
    requires Mirrors(es, bs) && IsLog(bs + new_) && |es| > 0
    requires forall i :: 0 <= i < |new_| ==> new_[i].epoch == es[|es| - 1].epoch
    ensures Mirrors(es, bs + new_)
    decreases |new_|
  {
    if |new_| == 0 {
      assert bs + new_ == bs;
    } else {
      var b := new_[0];
      assert (bs + new_)[..|bs|] == bs && (bs + new_)[|bs|] == b;
      PrefixContiguous(bs + new_, 0, |bs|);
      LeaderAppendOne(es, bs, b);
      assert bs + new_ == (bs + [b]) + new_[1..];
      LeaderAppendKeepsMirror(es, bs + [b], new_[1..]);
    }
  }

  lemma {:induction false} LeaderAppendOne(es: seq<Entry>, bs: seq<Batch>, b: Batch)
    requires Mirrors(es, bs) && IsLog(bs) && |es| > 0
    requires b.base == Leo(bs) && b.epoch == es[|es| - 1].epoch
    ensures es == Runs(bs + [b])
  {
    RunsExtend(bs, b);
    if |bs| > 0 {
      RunsLast(bs);
      MirrorRuns(es, bs);
    }
    if es != Runs(bs) {
      assert es == es[..|es| - 1] + [es[|es| - 1]];
    }
  }

  /** Cutting the log at a batch boundary below its end leaves exactly the compression. */
  lemma {:induction false} TruncateKeepsMirror(es: seq<Entry>, bs: seq<Batch>, k: nat)
    requires Mirrors(es, bs) && IsLog(bs) && k < |bs|
    ensures StartsBelow(es, Leo(bs[..k])) == Runs(bs[..k])
    ensures Mirrors(StartsBelow(es, Leo(bs[..k])), bs[..k])
  {
    MirrorRuns(es, bs);
    PrefixContiguous(bs, 0, k);
    var p := Runs(bs[..k]);
    RunsPrefix(bs, k);
    if |p| > 0 {
      var i := RunStart(bs[..k], |p| - 1);
      assert bs[..k][i] == bs[i];
      EndOffsetMonotone(bs, 0, i + 1, k);
      assert bs[..i + 1][i] == bs[i];
      assert p[|p| - 1].start < Leo(bs[..k]);
    }
    if |p| < |es| {
      if |p| < |Runs(bs)| {
        assert Runs(bs)[|p|] == es[|p|];
      } else {
        EndOffsetMonotone(bs, 0, k, |bs|);
        assert bs[..|bs|] == bs;
      }
    }
    StartsBelowUnique(es, Leo(bs[..k]), p);
    PrefixIncreasing(es, p);
  }

  /** The compression of a prefix is a prefix, and what is missing starts at or past the cut. */
  lemma {:induction false} RunsPrefix(bs: seq<Batch>, k: nat)
    requires IsLog(bs) && k <= |bs|
    ensures Runs(bs[..k]) <= Runs(bs)
    ensures |Runs(bs[..k])| < |Runs(bs)| ==> Runs(bs)[|Runs(bs[..k])|].start >= Leo(bs[..k])
  {
    if k == |bs| {
      assert bs[..k] == bs;
    } else {
      var n := |bs| - 1;
      PrefixContiguous(bs, 0, n);
      RunsPrefix(bs[..n], k);
      assert bs[..n][..k] == bs[..k];
      EndOffsetMonotone(bs, 0, k, n);
      assert bs[..n] + [bs[n]] == bs;
      RunsExtend(bs[..n], bs[n]);
    }
  }

  // ----- Replica append -----

  /** The epoch assignments of a replica append, in order. */
  function AssignAll(es: seq<Entry>, ts: seq<Entry>): seq<Entry> {
    if |ts| == 0 then es
    else
      var n := |ts| - 1;
      Assigned(AssignAll(es, ts[..n]), ts[n].epoch, ts[n].start)
  }

  lemma {:induction false} AssignAllSnoc(es: seq<Entry>, ts: seq<Entry>, t: Entry)
    ensures AssignAll(es, ts + [t]) == Assigned(AssignAll(es, ts), t.epoch, t.start)
  {
    assert (ts + [t])[..|ts|] == ts;
  }

  lemma {:induction false} AssignAllIncreasing(es: seq<Entry>, ts: seq<Entry>)
    requires Increasing(es) && forall i :: 0 <= i < |ts| ==> ts[i].epoch >= 0
    ensures Increasing(AssignAll(es, ts))
  {
    if |ts| > 0 {
      var n := |ts| - 1;
      AssignAllIncreasing(es, ts[..n]);
      AssignedIncreasing(AssignAll(es, ts[..n]), ts[n].epoch, ts[n].start);
    }
  }

  /** `a` is the cache `first` followed by all but the first run of `new_`. */
  ghost predicate AppendsRuns(first: seq<Entry>, new_: seq<Batch>, a: seq<Entry>)
    requires |new_| > 0
  {
    && |Runs(new_)| > 0
    && a == first + Runs(new_)[1..]
    && Increasing(a) && |a| > 0
    && a[|a| - 1].epoch == new_[|new_| - 1].epoch
    && a[|a| - 1].start <= new_[|new_| - 1].base
  }

  /** Offsets grow and epochs never fall from one batch to the next. */
  ghost predicate Climbs(bs: seq<Batch>) {
    |bs| > 1 ==>
      var n := |bs| - 1;
      bs[n - 1].base < bs[n].base && bs[n - 1].epoch <= bs[n].epoch && Climbs(bs[..n])
  }

  lemma {:induction false} RunClimbs(bs: seq<Batch>, from: nat)
    requires Contiguous(bs, from) && NonDecreasing(bs)
    ensures Climbs(bs)
  {
    if |bs| > 1 {
      var n := |bs| - 1;
      PrefixContiguous(bs, from, n);
      assert bs[n].base == EndOffset(bs[..n], from) && bs[n - 1].WellFormed();
      RunClimbs(bs[..n], from);
    }
  }

  /** Only the first assignment can touch older entries; the later ones append. */
  lemma {:induction false} AssignRuns(es: seq<Entry>, first: seq<Entry>, new_: seq<Batch>)
    requires Increasing(es) && |new_| > 0 && Climbs(new_) && new_[0].epoch >= 0
    requires first == Assigned(es, new_[0].epoch, new_[0].base)
    ensures AppendsRuns(first, new_, AssignAll(es, Runs(new_)))
  {
    var n := |new_| - 1;
    var init, e := new_[..n], new_[n];
    assert new_ == init + [e];
    if n == 0 {
      assert new_ == [e];
      AssignSingleRun(es, e);
    } else {
      AssignRuns(es, first, init);
      AssignLater(first, es, init, e);
    }
  }

  lemma {:induction false} AssignLater(first: seq<Entry>, es: seq<Entry>, init: seq<Batch>, e: Batch)
    requires |init| > 0 && AppendsRuns(first, init, AssignAll(es, Runs(init)))
    requires init[|init| - 1].base < e.base && init[|init| - 1].epoch <= e.epoch
    ensures AppendsRuns(first, init + [e], AssignAll(es, Runs(init + [e])))
  {
    AssignOneMore(first, init, e, AssignAll(es, Runs(init)));
    RunsExtend(init, e);
    AssignAllSnoc(es, Runs(init), Entry(e.epoch, e.base));
  }

  lemma {:induction false} AssignSingleRun(es: seq<Entry>, b: Batch)
    requires Increasing(es) && b.epoch >= 0
    ensures AppendsRuns(Assigned(es, b.epoch, b.base), [b], AssignAll(es, Runs([b])))
  {
    var t := Entry(b.epoch, b.base);
    SingleRun(b);
    AssignAllSnoc(es, [], t);
    assert [] + [t] == [t];
    AssignedIncreasing(es, b.epoch, b.base);
    AssignedLast(es, t);
    OneRunAppends(Assigned(es, b.epoch, b.base), [b]);
  }

  lemma {:induction false} SingleRun(b: Batch)
    ensures Runs([b]) == [Entry(b.epoch, b.base)]
  {
    assert [b][..0] == [];
  }

  lemma {:induction false} OneRunAppends(first: seq<Entry>, new_: seq<Batch>)
    requires Increasing(first) && |first| > 0 && |new_| == 1
    requires first[|first| - 1].epoch == new_[0].epoch && first[|first| - 1].start <= new_[0].base
    ensures AppendsRuns(first, new_, first)
  {
    assert new_[..0] == [];
  }

  lemma {:induction false} AssignedLast(es: seq<Entry>, t: Entry)
    requires Increasing(es) && t.epoch >= 0
    ensures var a := Assigned(es, t.epoch, t.start);
            |a| > 0 && a[|a| - 1].epoch == t.epoch && a[|a| - 1].start <= t.start
  {
  }

  lemma {:induction false} AssignOneMore(first: seq<Entry>, init: seq<Batch>, e: Batch, a: seq<Entry>)
    requires |init| > 0 && AppendsRuns(first, init, a)
    requires init[|init| - 1].base < e.base && init[|init| - 1].epoch <= e.epoch
    ensures e.epoch == init[|init| - 1].epoch ==> AppendsRuns(first, init + [e], a)
    ensures e.epoch != init[|init| - 1].epoch ==>
              AppendsRuns(first, init + [e], Assigned(a, e.epoch, e.base))
  {
    RunsExtend(init, e);
    if e.epoch != init[|init| - 1].epoch {
      var t := Entry(e.epoch, e.base);
      AssignPastEnd(a, t);
      assert (Runs(init) + [t])[1..] == Runs(init)[1..] + [t];
    }
  }

  /** The compression of a log extended by new batches. */
  lemma {:induction false} RunsConcat(bs: seq<Batch>, new_: seq<Batch>)
    requires |new_| > 0
    ensures |Runs(new_)| > 0
    ensures Runs(bs + new_) == Runs(bs + [new_[0]]) + Runs(new_)[1..]
  {
    var n := |new_| - 1;
    var init := new_[..n];
    assert init + [new_[n]] == new_;
    RunsExtend(init, new_[n]);
    if n == 0 {
      assert new_ == [new_[0]];
      assert Runs(init) == [];
      assert Runs(new_)[1..] == [];
    } else {
      RunsConcat(bs, init);
      assert init[0] == new_[0];
      assert (bs + init) + [new_[n]] == bs + new_;
      RunsExtend(bs + init, new_[n]);
      assert (bs + init)[|bs + init| - 1] == new_[n - 1];
      assert Runs(init)[1..] + [Entry(new_[n].epoch, new_[n].base)]
          == (Runs(init) + [Entry(new_[n].epoch, new_[n].base)])[1..];
    }
  }

  /**
   The first batch a replica append may accept: not behind the cache, or past the last
   stored batch (so that an unused trailing entry is dropped without touching real history).
   */
  predicate FirstEpochFits(es: seq<Entry>, bs: seq<Batch>, first: int) {
    || |es| == 0
    || first >= es[|es| - 1].epoch
    || |bs| == 0
    || first > bs[|bs| - 1].epoch
  }

  /** The first assignment of a replica append that fits. */
  lemma {:induction false} FirstAssignFits(es: seq<Entry>, bs: seq<Batch>, b: Batch)
    requires Mirrors(es, bs) && IsLog(bs) && b.base == Leo(bs) && b.epoch >= 0
    requires FirstEpochFits(es, bs, b.epoch)
    ensures Assigned(es, b.epoch, Leo(bs)) == Runs(bs + [b])
  {
    RunsExtend(bs, b);
    MirrorRuns(es, bs);
    var r := Runs(bs);
    if |bs| > 0 {
      RunsLast(bs);
      assert r[|r| - 1] == es[|r| - 1];
    }
    if AlreadyAssigned(es, b.epoch, Leo(bs)) {
      LeaderAppendOne(es, bs, b);
    } else {
      BelowIs(es, b.epoch, Leo(bs), |r|);
      assert es[..|r|] == r;
    }
  }

  /**
   A replica append keeps the mirror if and only if the epoch of its first batch fits. In
   the other case the assignment cuts entries of batches that are still in the log.
   */
  lemma {:induction false} ReplicaAppendMirror(es: seq<Entry>, bs: seq<Batch>, new_: seq<Batch>)
    requires Mirrors(es, bs) && IsLog(bs + new_) && |new_| > 0 && NonDecreasing(new_)
    ensures Mirrors(AssignAll(es, Runs(new_)), bs + new_)
       <==> FirstEpochFits(es, bs, new_[0].epoch)
    ensures FirstEpochFits(es, bs, new_[0].epoch) ==> AssignAll(es, Runs(new_)) == Runs(bs + new_)
  {
    SplitLog(bs, new_);
    RunClimbs(new_, Leo(bs));
    NonDecreasingAt(new_, 0, 0);
    assert new_[..0] == [];
    AssignRuns(es, Assigned(es, new_[0].epoch, Leo(bs)), new_);
    if FirstEpochFits(es, bs, new_[0].epoch) {
      RunsConcat(bs, new_);
      FirstAssignFits(es, bs, new_[0]);
    } else {
      FirstAssignMisfits(es, bs, new_);
    }
  }

  lemma {:induction false} SplitLog(bs: seq<Batch>, new_: seq<Batch>)
    requires IsLog(bs + new_)
    ensures IsLog(bs) && Contiguous(new_, Leo(bs))
  {
    var a := bs + new_;
    assert a[..|bs|] == bs;
    PrefixContiguous(a, 0, |bs|);
    forall i | 0 <= i < |new_|
      ensures new_[i].WellFormed() && new_[i].base == EndOffset(new_[..i], Leo(bs))
    {
      assert a[|bs| + i] == new_[i];
      assert a[..|bs| + i] == bs + new_[..i];
      if i > 0 { assert (bs + new_[..i])[|bs| + i - 1] == new_[..i][i - 1]; }
    }
  }

  /** Neighbouring batches whose epochs do not increase share an entry of a mirroring cache. */
  lemma {:induction false} NeighboursShareEntry(es: seq<Entry>, bs: seq<Batch>, i: nat) returns (j: nat)
    requires Mirrors(es, bs) && IsLog(bs) && i + 1 < |bs| && bs[i + 1].epoch <= bs[i].epoch
    ensures j < |es| && es[j].epoch == bs[i + 1].epoch && es[j].start <= bs[i].base
  {
    j := EntryOf(es, bs, i);
    var q := EntryOf(es, bs, i + 1);
    OffsetsInOrder(bs, i, i + 1);
    if j < q { IncreasingAt(es, j, q); }
    if q < j { IncreasingAt(es, q + 1, j); }
  }

  lemma {:induction false} FirstAssignMisfits(es: seq<Entry>, bs: seq<Batch>, new_: seq<Batch>)
    requires Mirrors(es, bs) && IsLog(bs + new_) && |new_| > 0
    requires AppendsRuns(Assigned(es, new_[0].epoch, Leo(bs)), new_, AssignAll(es, Runs(new_)))
    requires !FirstEpochFits(es, bs, new_[0].epoch)
    ensures !Mirrors(AssignAll(es, Runs(new_)), bs + new_)
  {
    var a, l := AssignAll(es, Runs(new_)), bs + new_;
    var i, z := |bs| - 1, |Assigned(es, new_[0].epoch, Leo(bs))| - 1;
    assert l[i] == bs[i] && l[i + 1] == new_[0];
    // the assignment left an entry of the first new epoch at the old log end ...
    assert a[z] == Entry(new_[0].epoch, Leo(bs));
    OffsetsInOrder(l, i, i + 1);
    if Mirrors(a, l) {
      // ... but a mirroring cache has that epoch start at an older batch
      var j := NeighboursShareEntry(a, l, i);
      if z < j { IncreasingAt(a, z, j); } else { IncreasingAt(a, j, z); }
      assert false;
    }
  }
}
