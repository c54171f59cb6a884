/**
 Record batches and flat logs.

 A batch keeps the fields that the log, the index and the epoch cache look at: its base
 offset, its number of records, the leader epoch stamped on it, its size on disk and the
 bytes covered by its checksum. A flat log is a contiguous sequence of batches; every
 segmented, indexed or replicated form in this project is stated against it.
 */
module Batches {

  /** Size in bytes of a record batch header: no stored batch is shorter. */
  const RECORD_BATCH_OVERHEAD: nat := 61

  const TWO_TO_31 := 0x8000_0000
  const TWO_TO_32 := 0x1_0000_0000
  const TWO_TO_63 := 0x8000_0000_0000_0000

  type Byte = x: int | 0 <= x < 256

  datatype Option<+T> = None | Some(value: T)

  datatype Batch = Batch(base: nat, count: nat, epoch: int, size: nat, body: seq<Byte>) {
    /** First offset after the batch. */
    function End(): nat { base + count }

    predicate WellFormed() { count >= 1 && size >= RECORD_BATCH_OVERHEAD }
  }

  /** Batches that follow one another without gap or overlap, starting at `from`. */
  ghost predicate Contiguous(bs: seq<Batch>, from: nat) {
    && (forall i :: 0 <= i < |bs| ==> bs[i].WellFormed())
    && (forall i {:trigger bs[..i]} :: 0 <= i < |bs| ==> bs[i].base == EndOffset(bs[..i], from))
  }

  /** Log end offset of the batches that start at `from`. */
  function EndOffset(bs: seq<Batch>, from: nat): nat {
    if |bs| == 0 then from else bs[|bs| - 1].End()
  }

  /** Log end offset of a whole log: logs start at offset 0. */
  function Leo(bs: seq<Batch>): nat { EndOffset(bs, 0) }

  ghost predicate IsLog(bs: seq<Batch>) { Contiguous(bs, 0) }

  /** Number of leading batches that end at or below `o`. */
  function CountUpTo(bs: seq<Batch>, o: nat): (k: nat)
    ensures k <= |bs|
  {
    if |bs| == 0 then 0
    else if bs[|bs| - 1].End() <= o then |bs|
    else CountUpTo(bs[..|bs| - 1], o)
  }

  /** The batches that end at or below `o`. */
  function UpTo(bs: seq<Batch>, o: nat): (r: seq<Batch>)
    ensures r <= bs
  {
    bs[..CountUpTo(bs, o)]
  }

  /** `o` lies between two batches, or at either end of the log. */
  predicate IsBoundary(bs: seq<Batch>, o: nat) { Leo(UpTo(bs, o)) == o }

  lemma {:induction false} PrefixContiguous(bs: seq<Batch>, from: nat, k: nat)
    requires Contiguous(bs, from) && k <= |bs|
    ensures Contiguous(bs[..k], from)
  {
    forall i | 0 <= i < k ensures bs[..k][i].base == EndOffset(bs[..k][..i], from) {
      assert bs[..k][i] == bs[i] && bs[..k][..i] == bs[..i];
    }
  }

  /** Later prefixes of a log end strictly later. */
  lemma {:induction false} EndOffsetMonotone(bs: seq<Batch>, from: nat, j: nat, k: nat)
    requires Contiguous(bs, from) && j <= k <= |bs|
    ensures EndOffset(bs[..j], from) + (k - j) <= EndOffset(bs[..k], from)
    decreases k - j
  {
    if j < k {
      EndOffsetMonotone(bs, from, j, k - 1);
      assert bs[..k][k - 1] == bs[k - 1];
    }
  }

  /** Each offset below the log end lies in exactly the batch that `CountUpTo` points at. */
  lemma {:induction false} CountUpToAt(bs: seq<Batch>, o: nat)
    requires IsLog(bs)
    ensures Leo(UpTo(bs, o)) <= o
    ensures CountUpTo(bs, o) < |bs| ==> bs[CountUpTo(bs, o)].base <= o < bs[CountUpTo(bs, o)].End()
    ensures o >= Leo(bs) <==> CountUpTo(bs, o) == |bs|
  {
    if |bs| > 0 && o < bs[|bs| - 1].End() {
      var init := bs[..|bs| - 1];
      PrefixContiguous(bs, 0, |bs| - 1);
      CountUpToAt(init, o);
      assert init[..CountUpTo(init, o)] == bs[..CountUpTo(bs, o)];
    }
  }

  /** A prefix of a log is found again from its own end offset. */
  lemma {:induction false} CountUpToBoundary(bs: seq<Batch>, k: nat)
    requires IsLog(bs) && k <= |bs|
    ensures CountUpTo(bs, Leo(bs[..k])) == k
    ensures UpTo(bs, Leo(bs[..k])) == bs[..k]
    ensures IsBoundary(bs, Leo(bs[..k]))
  {
    var c := CountUpTo(bs, Leo(bs[..k]));
    CountUpToAt(bs, Leo(bs[..k]));
    if c < k {
      assert bs[..c + 1][c] == bs[c];
      EndOffsetMonotone(bs, 0, c + 1, k);
    } else if k < c {
      EndOffsetMonotone(bs, 0, k, c);
    }
  }

  /** Cutting at a larger offset keeps more. */
  lemma {:induction false} UpToMonotone(bs: seq<Batch>, a: nat, b: nat)
    requires IsLog(bs) && a <= b
    ensures UpTo(bs, a) <= UpTo(bs, b)
  {
    CountUpToAt(bs, a);
    CountUpToAt(bs, b);
    var i, j := CountUpTo(bs, a), CountUpTo(bs, b);
    if j < i {
      assert bs[..j + 1][j] == bs[j];
      EndOffsetMonotone(bs, 0, j + 1, i);
    }
  }

  /** Total size on disk. */
  function Bytes(bs: seq<Batch>): nat {
    if |bs| == 0 then 0 else Bytes(bs[..|bs| - 1]) + bs[|bs| - 1].size
  }

  /** Longest sequence of batches that both logs start with. */
  function CommonPrefix(a: seq<Batch>, b: seq<Batch>): (r: seq<Batch>)
    ensures r <= a && r <= b
    ensures |r| < |a| && |r| < |b| ==> a[|r|] != b[|r|]
  {
    if |a| == 0 || |b| == 0 || a[0] != b[0] then []
    else
      var t := CommonPrefix(a[1..], b[1..]);
      assert t <= a[1..] && t <= b[1..];
      [a[0]] + t
  }
}
