/**
 How a flat log is laid out over segments: each segment continues the one before it, and
 only the last one may be empty.
 */
module SegmentLayout {
  import opened Batches
  import opened PartitionModel
  import opened Segments

  ghost function Flatten(segs: seq<seq<Batch>>): seq<Batch> {
    if |segs| == 0 then [] else Flatten(segs[..|segs| - 1]) + segs[|segs| - 1]
  }

  ghost predicate Laid(segs: seq<seq<Batch>>, bases: seq<nat>) {
    && |segs| == |bases| && |segs| > 0 && bases[0] == 0
    && (forall i :: 0 <= i < |segs| ==> Contiguous(segs[i], bases[i]))
    && (forall i :: 0 < i < |segs| ==> Continues(segs[i - 1], bases[i - 1], bases[i]))
  }

  /** A non-empty segment that ends at `next`. */
  ghost predicate Continues(seg: seq<Batch>, base: nat, next: nat) {
    |seg| > 0 && EndOffset(seg, base) == next
  }

  lemma {:induction false} LaidPrefix(segs: seq<seq<Batch>>, bases: seq<nat>, k: nat)
    requires Laid(segs, bases) && 0 < k <= |segs|
    ensures Laid(segs[..k], bases[..k])
  {
  }

  /** The segments before `k` end where segment `k` starts. */
  lemma {:induction false} FlattenPrefix(segs: seq<seq<Batch>>, bases: seq<nat>, k: nat)
    requires Laid(segs, bases) && k < |segs|
    ensures IsLog(Flatten(segs[..k])) && Leo(Flatten(segs[..k])) == bases[k]
  {
    if k > 0 {
      FlattenPrefix(segs, bases, k - 1);
      assert segs[..k][..k - 1] == segs[..k - 1];
      assert Continues(segs[k - 1], bases[k - 1], bases[k]);
      ConcatLog(Flatten(segs[..k - 1]), segs[k - 1]);
    }
  }

  /** A laid-out log is a log, and its last segment ends where it ends. */
  lemma {:induction false} FlattenLog(segs: seq<seq<Batch>>, bases: seq<nat>)
    requires Laid(segs, bases)
    ensures IsLog(Flatten(segs)) && Leo(Flatten(segs)) == EndOffset(segs[|segs| - 1], bases[|segs| - 1])
  {
    var n := |segs| - 1;
    FlattenPrefix(segs, bases, n);
    ConcatLog(Flatten(segs[..n]), segs[n]);
  }

  /** Later segments start strictly later. */
  lemma {:induction false} BasesIncrease(segs: seq<seq<Batch>>, bases: seq<nat>, i: nat, j: nat)
    requires Laid(segs, bases) && i < j < |segs|
    ensures bases[i] < bases[j]
    decreases j
  {
    if i < j - 1 { BasesIncrease(segs, bases, i, j - 1); }
    assert Continues(segs[j - 1], bases[j - 1], bases[j]);
    EndOffsetMonotone(segs[j - 1], bases[j - 1], 0, |segs[j - 1]|);
    assert segs[j - 1][..|segs[j - 1]|] == segs[j - 1];
  }

  /** The batches up to batch `k` of segment `t` start the flat log. */
  lemma {:induction false} FlattenCut(segs: seq<seq<Batch>>, t: nat, k: nat)
    requires t < |segs| && k <= |segs[t]|
    ensures Flatten(segs[..t]) + segs[t][..k] <= Flatten(segs)
    ensures k < |segs[t]| ==>
              var g := |Flatten(segs[..t])| + k;
              g < |Flatten(segs)| && Flatten(segs)[g] == segs[t][k]
    decreases |segs|
  {
    var n := |segs| - 1;
    if t < n {
      FlattenCut(segs[..n], t, k);
      assert segs[..n][..t] == segs[..t];
    }
  }

  /** Replacing the last segment by a longer one adds to the end of the log. */
  lemma {:induction false} FlattenAppend(segs: seq<seq<Batch>>, more: seq<Batch>)
    requires |segs| > 0
    ensures var n := |segs| - 1; Flatten(segs[n := segs[n] + more]) == Flatten(segs) + more
  {
    var n := |segs| - 1;
    assert segs[n := segs[n] + more][..n] == segs[..n];
    assert Flatten(segs[..n]) + (segs[n] + more) == Flatten(segs[..n]) + segs[n] + more;
  }

  lemma {:induction false} LaidAppend(segs: seq<seq<Batch>>, bases: seq<nat>, more: seq<Batch>)
    requires Laid(segs, bases)
    requires Contiguous(segs[|segs| - 1] + more, bases[|segs| - 1])
    ensures Laid(segs[|segs| - 1 := segs[|segs| - 1] + more], bases)
  {
  }

  /** A new empty segment after a non-empty one changes nothing. */
  lemma {:induction false} LaidRoll(segs: seq<seq<Batch>>, bases: seq<nat>, next: nat)
    requires Laid(segs, bases) && |segs[|segs| - 1]| > 0
    requires next == EndOffset(segs[|segs| - 1], bases[|segs| - 1])
    ensures Laid(segs + [[]], bases + [next]) && Flatten(segs + [[]]) == Flatten(segs)
  {
    assert (segs + [[]])[..|segs|] == segs;
  }

  /** Cutting at a batch of segment `t` drops the later segments and keeps the log up to there. */
  lemma {:induction false} LaidCut(segs: seq<seq<Batch>>, bases: seq<nat>, t: nat, k: nat)
    requires Laid(segs, bases) && t < |segs| && k <= |segs[t]|
    ensures var o := EndOffset(segs[t][..k], bases[t]);
            var cut := segs[..t] + [segs[t][..k]];
            && Laid(cut, bases[..t + 1])
            && Flatten(cut) == UpTo(Flatten(segs), o) && IsBoundary(Flatten(segs), o)
  {
    var cut := segs[..t] + [segs[t][..k]];
    PrefixContiguous(segs[t], bases[t], k);
    LaidPrefix(segs, bases, t + 1);
    assert cut[..t] == segs[..t];
    FlattenCut(segs, t, k);
    FlattenLog(segs, bases);
    FlattenLog(cut, bases[..t + 1]);
    var p := Flatten(cut);
    assert p == Flatten(segs)[..|p|];
    CountUpToBoundary(Flatten(segs), |p|);
  }

  /** An offset inside a batch is not a boundary. */
  lemma {:induction false} InsideIsNoBoundary(bs: seq<Batch>, g: nat, o: nat)
    requires IsLog(bs) && g < |bs| && bs[g].base < o < bs[g].End()
    ensures !IsBoundary(bs, o)
  {
    var c := CountUpTo(bs, o);
    if c <= g {
      EndOffsetMonotone(bs, 0, c, g);
      assert bs[g].base == Leo(bs[..g]);
    } else {
      EndOffsetMonotone(bs, 0, g + 1, c);
      assert bs[..g + 1][g] == bs[g];
    }
  }

  /** The batch that holds an offset is the one the flat log finds. */
  lemma {:induction false} HolderUnique(bs: seq<Batch>, g: nat, o: nat)
    requires IsLog(bs) && g < |bs| && bs[g].base <= o < bs[g].End()
    ensures CountUpTo(bs, o) == g
  {
    CountUpToAt(bs, o);
    var c := CountUpTo(bs, o);
    if c < g {
      EndOffsetMonotone(bs, 0, c + 1, g);
    } else if g < c {
      EndOffsetMonotone(bs, 0, g + 1, c);
    }
  }

  /** Segment `t` starts at or below the offset and the next one, if any, above it. */
  ghost predicate Covers(bases: seq<nat>, t: nat, offset: nat)
    requires t < |bases|
  {
    bases[t] <= offset && (t + 1 < |bases| ==> offset < bases[t + 1])
  }

  /** An offset is in the log exactly when it is in the segment that covers it. */
  lemma {:induction false} CoverEnds(segs: seq<seq<Batch>>, bases: seq<nat>, t: nat, offset: nat)
    requires Laid(segs, bases) && t < |segs| && Covers(bases, t, offset)
    ensures offset < Leo(Flatten(segs)) <==> offset < EndOffset(segs[t], bases[t])
  {
    var n := |segs| - 1;
    FlattenLog(segs, bases);
    if t < n {
      assert Continues(segs[t + 1 - 1], bases[t + 1 - 1], bases[t + 1]);
      if t + 1 < n { BasesIncrease(segs, bases, t + 1, n); }
      EndOffsetMonotone(segs[n], bases[n], 0, |segs[n]|);
      assert segs[n][..|segs[n]|] == segs[n];
    }
  }

  /** An offset inside a batch of a segment is no boundary of the log. */
  lemma {:induction false} InsideLaid(segs: seq<seq<Batch>>, bases: seq<nat>, t: nat, k: nat, o: nat)
    requires Laid(segs, bases) && t < |segs| && k < |segs[t]| && segs[t][k].base < o < segs[t][k].End()
    ensures !IsBoundary(Flatten(segs), o)
  {
    FlattenLog(segs, bases);
    FlattenCut(segs, t, k);
    InsideIsNoBoundary(Flatten(segs), |Flatten(segs[..t])| + k, o);
  }

  /** Batches `k` to `j` of a segment are those of the log from the one that holds `o` on. */
  ghost predicate Slice(log: seq<Batch>, o: nat, bs: seq<Batch>, base: nat, k: nat, j: nat, g: nat) {
    && g == CountUpTo(log, o) && k < j <= |bs| && g + (j - k) <= |log|
    && log[g..g + (j - k)] == bs[k..j] && Leo(log[..g + (j - k)]) == EndOffset(bs[..j], base)
  }

  /** Batches of one segment are consecutive batches of the log, and hold the same offsets. */
  lemma {:induction false} RangeLaid(segs: seq<seq<Batch>>, bases: seq<nat>, t: nat, k: nat, j: nat, o: nat)
    requires Laid(segs, bases) && t < |segs| && k < j <= |segs[t]|
    requires segs[t][k].base <= o < segs[t][k].End()
    ensures Slice(Flatten(segs), o, segs[t], bases[t], k, j, CountUpTo(Flatten(segs), o))
  {
    FlattenLog(segs, bases);
    FlattenCut(segs, t, k);
    HolderUnique(Flatten(segs), |Flatten(segs[..t])| + k, o);
    FlattenCut(segs, t, j);
    SameSlice(Flatten(segs[..t]), segs[t], Flatten(segs), k, j, bases[t]);
  }

  ghost predicate IsTail(tail: seq<Batch>, bs: seq<Batch>) { |tail| <= |bs| && bs[|bs| - |tail|..] == tail }

  /** What a cut leaves of its segment is the end of what it leaves of the log. */
  lemma {:induction false} CutIsTail(segs: seq<seq<Batch>>, bases: seq<nat>, t: nat, k: nat)
    requires Laid(segs, bases) && t < |segs| && k <= |segs[t]|
    ensures var o := EndOffset(segs[t][..k], bases[t]);
            IsTail(segs[t][..k], UpTo(Flatten(segs), o)) && IsBoundary(Flatten(segs), o)
  {
    LaidCut(segs, bases, t, k);
    assert (segs[..t] + [segs[t][..k]])[..t] == segs[..t];
  }

  /** `n` batches from `g` on are all that fit in `maxBytes`, or reach to where a segment starts. */
  ghost predicate FullRange(log: seq<Batch>, bases: seq<nat>, maxBytes: int, g: nat, n: nat) {
    g + n < |log| ==> Bytes(log[g..g + n]) + log[g + n].size > maxBytes || log[g + n].base in bases
  }

  /** What follows a whole segment in the log starts the next segment. */
  lemma {:induction false} AfterSegment(segs: seq<seq<Batch>>, bases: seq<nat>, t: nat, i: nat)
    requires Laid(segs, bases) && t < |segs|
    requires i < |Flatten(segs)| && Leo(Flatten(segs)[..i]) == EndOffset(segs[t], bases[t])
    ensures Flatten(segs)[i].base in bases
  {
    var log := Flatten(segs);
    FlattenLog(segs, bases);
    assert log[i].base == Leo(log[..i]);
    if t + 1 < |segs| {
      assert Continues(segs[t + 1 - 1], bases[t + 1 - 1], bases[t + 1]);
    } else {
      EndOffsetMonotone(log, 0, i + 1, |log|);
    }
  }

  lemma {:induction false} NextBytes(bs: seq<Batch>, k: nat, j: nat)
    requires k <= j < |bs|
    ensures Bytes(bs[..j + 1]) == Bytes(bs[..k]) + Bytes(bs[k..j]) + bs[j].size
  {
    assert bs[..j] == bs[..k] + bs[k..j] && bs[..j + 1][..j] == bs[..j];
    BytesConcat(bs[..k], bs[k..j]);
  }

  lemma {:induction false} NextInLog(log: seq<Batch>, o: nat, bs: seq<Batch>, base: nat, k: nat, j: nat, g: nat)
    requires j < |bs| && Slice(log, o, bs, base, k, j + 1, g) && k <= j
    ensures g + (j - k) < |log| && log[g + (j - k)] == bs[j]
  {
    assert log[g..g + (j + 1 - k)][j - k] == bs[k..j + 1][j - k];
  }

  lemma {:induction false} TakenIsFull(segs: seq<seq<Batch>>, bases: seq<nat>, t: nat, k: nat, j: nat, o: nat,
                                       maxBytes: int, start: nat, end: nat, upTo: nat)
    requires Laid(segs, bases) && t < |segs| && Taken(segs[t], bases[t], maxBytes, k, j, start, end, upTo)
    requires segs[t][k].base <= o < segs[t][k].End()
    ensures FullRange(Flatten(segs), bases, maxBytes, CountUpTo(Flatten(segs), o), j - k)
  {
    var log, bs := Flatten(segs), segs[t];
    var g := CountUpTo(log, o);
    RangeLaid(segs, bases, t, k, j, o);
    if j < |bs| {
      RangeLaid(segs, bases, t, k, j + 1, o);
      NextInLog(log, o, bs, bases[t], k, j, g);
      NextBytes(bs, k, j);
    } else if g + (j - k) < |log| {
      assert bs[..j] == bs;
      AfterSegment(segs, bases, t, g + (j - k));
    }
  }

  /** What was read from a segment is what the log has from the batch that holds `o` on, as much as fits. */
  lemma {:induction false} RangeRead(segs: seq<seq<Batch>>, bases: seq<nat>, t: nat, k: nat, j: nat, o: nat,
                                     maxBytes: int, start: nat, end: nat, upTo: nat)
    requires Laid(segs, bases) && t < |segs| && Taken(segs[t], bases[t], maxBytes, k, j, start, end, upTo)
    requires segs[t][k].base <= o < segs[t][k].End()
    ensures Slice(Flatten(segs), o, segs[t], bases[t], k, j, CountUpTo(Flatten(segs), o))
    ensures FullRange(Flatten(segs), bases, maxBytes, CountUpTo(Flatten(segs), o), j - k)
  {
    RangeLaid(segs, bases, t, k, j, o);
    TakenIsFull(segs, bases, t, k, j, o, maxBytes, start, end, upTo);
  }

  lemma {:induction false} SameSlice(p: seq<Batch>, s: seq<Batch>, all: seq<Batch>, k: nat, j: nat, base: nat)
    requires k < j <= |s| && p + s[..j] <= all
    ensures all[|p| + k..|p| + j] == s[k..j]
    ensures Leo(all[..|p| + j]) == EndOffset(s[..j], base)
  {
    assert all[..|p| + j] == p + s[..j];
    forall i | k <= i < j ensures all[|p| + i] == s[i] {
      assert (p + s[..j])[|p| + i] == s[i];
    }
  }
}
