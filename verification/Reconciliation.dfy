/**
 Leader-epoch reconciliation (KIP-101, KIP-279): a follower asks the leader where an epoch
 ends, truncates itself, and repeats with a smaller epoch until both agree on one.
 */
module Reconciliation {
  import opened Batches
  import opened EpochCache
  import opened EpochMirror

  /** What a replica stores: its batches and its leader-epoch cache. */
  datatype ReplicaLog = ReplicaLog(batches: seq<Batch>, cache: seq<Entry>) {
    function End(): nat { Leo(batches) }

    ghost predicate Coherent() { IsLog(batches) && Mirrors(cache, batches) }
  }

  /** For every leader epoch, everything its only leader ever had in its log. */
  type Histories = map<int, seq<Batch>>

  /** The log up to the end of each cached epoch is a prefix of the history of that epoch. */
  ghost predicate Grounded(r: ReplicaLog, hist: Histories) {
    forall j :: 0 <= j < |r.cache| ==> EntryGrounded(r, j, hist)
  }

  ghost predicate EntryGrounded(r: ReplicaLog, j: nat, hist: Histories)
    requires j < |r.cache|
  {
    && r.cache[j].epoch in hist
    && UpTo(r.batches, EntryEnd(r.cache, j, r.End())) <= hist[r.cache[j].epoch]
  }

  // ----- One round -----

  /** The leader's answer; a negative field stands for an undefined epoch or offset. */
  datatype Answer = Failed | Reply(epoch: int, end: int)

  function AnswerOf(leader: ReplicaLog, epoch: int): Answer {
    match EndOffsetFor(leader.cache, epoch, leader.End())
    case None => Reply(-1, -1)
    case Some(e) => Reply(e.epoch, e.end)
  }

  /** Log truncation; rejects an offset past the log end or inside a batch. */
  function Truncate(r: ReplicaLog, o: nat): Option<ReplicaLog> {
    if o > r.End() then None
    else if o == r.End() then Some(r)
    else if !IsBoundary(r.batches, o) then None
    else Some(ReplicaLog(UpTo(r.batches, o), StartsBelow(r.cache, o)))
  }

  /** `Unknown` is the exit on which the follower has no epoch to compare with. */
  datatype Outcome = Rejected | Settled | Unknown | Continue(epoch: int)

  datatype RoundResult = RoundResult(log: ReplicaLog, outcome: Outcome)

  function Min(a: nat, b: nat): nat { if a < b then a else b }

  function TruncationOffset(f: ReplicaLog, local: Option<EpochEnd>, leaderEnd: nat): nat {
    Min(if local.Some? then Min(local.value.end, leaderEnd) else leaderEnd, f.End())
  }

  function Verdict(local: Option<EpochEnd>, epoch: int): Outcome {
    if local.None? then Unknown
    else if local.value.epoch == epoch then Settled
    else Continue(local.value.epoch)
  }

  function Round(f: ReplicaLog, a: Answer): RoundResult {
    if a.Failed? || a.epoch < 0 || a.end < 0 then RoundResult(f, Rejected)
    else
      var local := EndOffsetFor(f.cache, a.epoch, f.End());
      match Truncate(f, TruncationOffset(f, local, a.end))
      case None => RoundResult(f, Rejected)
      case Some(f') => RoundResult(f', Verdict(local, a.epoch))
  }

  // ----- Facts about truncation -----

  lemma {:induction false} UpToAll(bs: seq<Batch>)
    ensures UpTo(bs, Leo(bs)) == bs
  {
  }

  /** A successful truncation leaves exactly the batches up to the offset. */
  lemma {:induction false} TruncateIs(r: ReplicaLog, o: nat)
    requires r.Coherent() && Truncate(r, o).Some?
    ensures var t := Truncate(r, o).value;
            && t.batches == UpTo(r.batches, o) && t.End() == o
            && t.cache <= r.cache
            && t.Coherent()
  {
    UpToAll(r.batches);
    if o < r.End() {
      var k := CountUpTo(r.batches, o);
      CountUpToAt(r.batches, o);
      PrefixContiguous(r.batches, 0, k);
      TruncateKeepsMirror(r.cache, r.batches, k);
    }
  }

  /** Truncation succeeds exactly at batch boundaries of the log. */
  lemma {:induction false} TruncateSucceeds(r: ReplicaLog, o: nat)
    requires r.Coherent()
    ensures Truncate(r, o).Some? <==> IsBoundary(r.batches, o)
  {
    UpToAll(r.batches);
    if o > r.End() {
      CountUpToAt(r.batches, o);
    }
  }

  /** Entry ends are batch boundaries. */
  lemma {:induction false} EntryEndBoundary(r: ReplicaLog, j: nat)
    requires r.Coherent() && j < |r.cache|
    ensures IsBoundary(r.batches, EntryEnd(r.cache, j, r.End()))
    ensures EntryEnd(r.cache, j, r.End()) <= r.End()
  {
    UpToAll(r.batches);
    if j + 1 < |r.cache| {
      var i := EntryStart(r.cache, r.batches, j + 1);
      CountUpToBoundary(r.batches, i);
      MirrorStarts(r.cache, r.batches);
    }
  }

  lemma {:induction false} TruncateKeepsGrounded(r: ReplicaLog, o: nat, hist: Histories)
    requires r.Coherent() && Grounded(r, hist) && Truncate(r, o).Some?
    ensures Grounded(Truncate(r, o).value, hist)
  {
    var t := Truncate(r, o).value;
    TruncateIs(r, o);
    if o < r.End() {
      forall j | 0 <= j < |t.cache| ensures EntryGrounded(t, j, hist) {
        var e, e' := EntryEnd(r.cache, j, r.End()), EntryEnd(t.cache, j, t.End());
        assert t.cache[j] == r.cache[j];
        assert EntryGrounded(r, j, hist);
        assert e' <= e by {
          if j + 1 < |t.cache| { assert t.cache[j + 1] == r.cache[j + 1]; }
        }
        UpToOfPrefix(r.batches, o, e');
        UpToMonotone(r.batches, e', e);
      }
    }
  }

  lemma {:induction false} UpToOfPrefix(bs: seq<Batch>, o: nat, e: nat)
    requires IsLog(bs)
    ensures UpTo(UpTo(bs, o), e) <= UpTo(bs, e)
  {
    var p := UpTo(bs, o);
    var k := CountUpTo(p, e);
    PrefixContiguous(bs, 0, |p|);
    CountUpToAt(p, e);
    assert p[..k] == bs[..k];
    CountUpToBoundary(bs, k);
    UpToMonotone(bs, Leo(bs[..k]), e);
  }

  /** Two prefixes of one history are ordered by their end offsets. */
  lemma {:induction false} PrefixesMeet(a: seq<Batch>, b: seq<Batch>, h: seq<Batch>)
    requires IsLog(a) && IsLog(b) && a <= h && b <= h && Leo(a) <= Leo(b)
    ensures a <= b
  {
    if |b| < |a| {
      assert b == a[..|b|] && a[..|a|] == a;
      EndOffsetMonotone(a, 0, |b|, |a|);
    }
  }

  lemma {:induction false} ZeroIsEmpty(bs: seq<Batch>)
    requires IsLog(bs)
    ensures UpTo(bs, 0) == []
  {
    CountUpToAt(bs, 0);
    EndOffsetMonotone(bs, 0, 0, CountUpTo(bs, 0));
  }

  // ----- A settled round ends in a prefix -----

  /** A round that is not rejected cuts at the truncation offset. */
  lemma {:induction false} RoundCuts(f: ReplicaLog, a: Answer) returns (t: nat)
    requires f.Coherent() && Round(f, a).outcome != Rejected
    ensures a.Reply? && a.epoch >= 0 && a.end >= 0
    ensures t == TruncationOffset(f, EndOffsetFor(f.cache, a.epoch, f.End()), a.end)
    ensures Round(f, a).log.batches == UpTo(f.batches, t)
    ensures Round(f, a).outcome == Verdict(EndOffsetFor(f.cache, a.epoch, f.End()), a.epoch)
  {
    t := TruncationOffset(f, EndOffsetFor(f.cache, a.epoch, f.End()), a.end);
    TruncateIs(f, t);
  }

  /** A round that settles leaves a prefix of the leader. */
  lemma {:induction false} SettledRoundIsPrefix(f: ReplicaLog, l: ReplicaLog, epoch: int, hist: Histories)
    requires f.Coherent() && l.Coherent() && Grounded(f, hist) && Grounded(l, hist)
    requires Round(f, AnswerOf(l, epoch)).outcome == Settled
    ensures Round(f, AnswerOf(l, epoch)).log.batches <= l.batches
  {
    var a := AnswerOf(l, epoch);
    var t := RoundCuts(f, a);
    var i := EndOffsetForIs(f.cache, a.epoch, f.End());
    var j := EndOffsetForIs(l.cache, epoch, l.End());
    if i == |f.cache| || j == |l.cache| {
      MirrorFirst(l.cache, l.batches);
      MirrorFirst(f.cache, f.batches);
      ZeroIsEmpty(f.batches);
    } else {
      EntryEndBoundary(f, i);
      SharedEpochCut(f, l, i, j, hist);
    }
  }

  /** Two replicas that share an epoch agree up to the earlier of its two ends. */
  lemma {:induction false} SharedEpochCut(f: ReplicaLog, l: ReplicaLog, i: nat, j: nat, hist: Histories)
    requires f.Coherent() && l.Coherent() && Grounded(f, hist) && Grounded(l, hist)
    requires i < |f.cache| && j < |l.cache| && f.cache[i].epoch == l.cache[j].epoch
    ensures var t := Min(EntryEnd(f.cache, i, f.End()), EntryEnd(l.cache, j, l.End()));
            IsBoundary(f.batches, t) && UpTo(f.batches, t) <= l.batches
  {
    var ef, el := EntryEnd(f.cache, i, f.End()), EntryEnd(l.cache, j, l.End());
    var a, b := UpTo(f.batches, ef), UpTo(l.batches, el);
    EntryEndBoundary(f, i);
    EntryEndBoundary(l, j);
    assert EntryGrounded(f, i, hist) && EntryGrounded(l, j, hist);
    PrefixContiguous(f.batches, 0, |a|);
    PrefixContiguous(l.batches, 0, |b|);
    var h := hist[f.cache[i].epoch];
    if ef <= el {
      PrefixesMeet(a, b, h);
    } else {
      PrefixesMeet(b, a, h);
      assert b == f.batches[..|b|];
      CountUpToBoundary(f.batches, |b|);
    }
  }

  // ----- A round never cuts common batches -----

  ghost predicate EpochsAtMost(bs: seq<Batch>, e: int) {
    forall i :: 0 <= i < |bs| ==> bs[i].epoch <= e
  }

  /** The end the leader reports for `epoch` lies past every common batch at or below `epoch`. */
  lemma {:induction false} LeaderEndPastCommon(l: ReplicaLog, epoch: int, p: seq<Batch>)
    requires l.Coherent() && p <= l.batches && EpochsAtMost(p, epoch)
    requires EndOffsetFor(l.cache, epoch, l.End()).Some?
    ensures Leo(p) <= EndOffsetFor(l.cache, epoch, l.End()).value.end
    ensures EpochsAtMost(p, EndOffsetFor(l.cache, epoch, l.End()).value.epoch)
  {
    var es := l.cache;
    var k := EpochsUpTo(es, epoch);
    forall i | 0 <= i < |p|
      ensures k > 0 && p[i].epoch <= es[k - 1].epoch && p[i].End() <= EntryEnd(es, k - 1, l.End())
    {
      var j := EntryOf(es, l.batches, i);
      if k <= j { IncreasingAt(es, k, j); }
      MirrorStarts(es, l.batches);
      IncreasingAt(es, j, k - 1);
      if j < k - 1 { IncreasingAt(es, j + 1, k - 1); }
      if k < |es| { IncreasingAt(es, k - 1, k); }
    }
    if |p| > 0 {
      assert p[|p| - 1].End() <= EntryEnd(es, k - 1, l.End());
    }
  }

  /** Common batches survive a round, and a continued round asks for a smaller cached epoch. */
  lemma {:induction false} RoundKeepsCommon(f: ReplicaLog, l: ReplicaLog, epoch: int, p: seq<Batch>)
    requires f.Coherent() && l.Coherent() && EpochsAtMost(f.batches, epoch)
    requires p <= f.batches && p <= l.batches
    ensures var r := Round(f, AnswerOf(l, epoch));
            p <= r.log.batches && r.log.batches <= f.batches
  {
    var a := AnswerOf(l, epoch);
    var r := Round(f, a);
    PrefixAtMost(f.batches, p, epoch);
    if r.outcome != Rejected {
      LeaderEndPastCommon(l, epoch, p);
      var local := EndOffsetFor(f.cache, a.epoch, f.End());
      if local.Some? { LeaderEndPastCommon(f, a.epoch, p); }
      var t := TruncationOffset(f, local, a.end);
      TruncateIs(f, t);
      assert Leo(p) <= t by { PrefixEnd(f.batches, p); }
      PrefixSurvives(f.batches, p, t);
    }
  }

  lemma {:induction false} PrefixEnd(bs: seq<Batch>, p: seq<Batch>)
    requires IsLog(bs) && p <= bs
    ensures IsLog(p) && Leo(p) <= Leo(bs)
    ensures Leo(p) == Leo(bs) ==> p == bs
  {
    assert bs[..|p|] == p && bs[..|bs|] == bs;
    PrefixContiguous(bs, 0, |p|);
    EndOffsetMonotone(bs, 0, |p|, |bs|);
  }

  lemma {:induction false} PrefixSurvives(bs: seq<Batch>, p: seq<Batch>, t: nat)
    requires IsLog(bs) && p <= bs && Leo(p) <= t
    ensures p <= UpTo(bs, t)
  {
    assert bs[..|p|] == p;
    CountUpToBoundary(bs, |p|);
    UpToMonotone(bs, Leo(p), t);
  }

  lemma {:induction false} PrefixAtMost(bs: seq<Batch>, p: seq<Batch>, e: int)
    requires p <= bs && EpochsAtMost(bs, e)
    ensures EpochsAtMost(p, e)
  {
    assert forall i :: 0 <= i < |p| ==> p[i] == bs[i];
  }

  lemma {:induction false} RoundContinues(f: ReplicaLog, a: Answer) returns (j: nat)
    requires f.Coherent() && Round(f, a).outcome.Continue?
    ensures j < |f.cache| && Round(f, a).outcome == Continue(f.cache[j].epoch)
    ensures f.cache[j].epoch < a.epoch
    ensures EpochsAtMost(Round(f, a).log.batches, f.cache[j].epoch)
  {
    var local := EndOffsetFor(f.cache, a.epoch, f.End());
    var t := TruncationOffset(f, local, a.end);
    assert Round(f, a) == RoundResult(Truncate(f, t).value, Verdict(local, a.epoch));
    j := EpochsUpTo(f.cache, a.epoch) - 1;
    assert local == Some(EpochEnd(f.cache[j].epoch, EntryEnd(f.cache, j, f.End())));
    TruncateIs(f, t);
    CutEpochs(f, j, t);
  }

  /** What lies before the end of an entry was written at or before its epoch. */
  lemma {:induction false} CutEpochs(f: ReplicaLog, j: nat, t: nat)
    requires f.Coherent() && j < |f.cache| && t <= EntryEnd(f.cache, j, f.End())
    ensures EpochsAtMost(UpTo(f.batches, t), f.cache[j].epoch)
  {
    var p := UpTo(f.batches, t);
    CountUpToAt(f.batches, t);
    forall i | 0 <= i < |p| ensures p[i].epoch <= f.cache[j].epoch {
      EndOffsetMonotone(f.batches, 0, i + 1, |p|);
      assert f.batches[..i + 1][i] == f.batches[i];
      BatchBeforeEnd(f, j, i);
    }
  }

  lemma {:induction false} BatchBeforeEnd(f: ReplicaLog, j: nat, i: nat)
    requires f.Coherent() && j < |f.cache| && i < |f.batches|
    requires f.batches[i].End() <= EntryEnd(f.cache, j, f.End())
    ensures f.batches[i].epoch <= f.cache[j].epoch
  {
    var q := EntryOf(f.cache, f.batches, i);
    assert f.batches[i].WellFormed();
    if j < q { IncreasingAt(f.cache, j + 1, q); } else { IncreasingAt(f.cache, q, j); }
  }

  lemma {:induction false} RoundKeepsState(f: ReplicaLog, a: Answer, hist: Histories)
    requires f.Coherent()
    ensures Round(f, a).log.Coherent() && Round(f, a).log.cache <= f.cache
    ensures Grounded(f, hist) ==> Grounded(Round(f, a).log, hist)
  {
    if Round(f, a).outcome != Rejected {
      var t := TruncationOffset(f, EndOffsetFor(f.cache, a.epoch, f.End()), a.end);
      TruncateIs(f, t);
      if Grounded(f, hist) { TruncateKeepsGrounded(f, t, hist); }
    }
  }

  /** A follower that already is a prefix of the leader is left alone. */
  lemma {:induction false} RoundOnPrefix(f: ReplicaLog, l: ReplicaLog, epoch: int)
    requires f.Coherent() && l.Coherent() && EpochsAtMost(f.batches, epoch)
    requires f.batches <= l.batches
    ensures Round(f, AnswerOf(l, epoch)).log == f
  {
    var a := AnswerOf(l, epoch);
    RoundKeepsCommon(f, l, epoch, f.batches);
    if Round(f, a).outcome != Rejected {
      var t := TruncationOffset(f, EndOffsetFor(f.cache, a.epoch, f.End()), a.end);
      TruncateIs(f, t);
    }
  }

  // ----- The unknown-epoch exit -----

  /** The batch that ends where a non-empty entry ends carries its epoch. */
  lemma {:induction false} OwnerOfLast(r: ReplicaLog, j: nat, i: nat)
    requires r.Coherent() && j < |r.cache| && i < |r.batches|
    requires r.cache[j].start < r.batches[i].End() == EntryEnd(r.cache, j, r.End())
    ensures r.batches[i].epoch == r.cache[j].epoch
  {
    var q := EntryOf(r.cache, r.batches, i);
    assert r.batches[i].WellFormed();
    if j < q { IncreasingAt(r.cache, j + 1, q); }
    if q < j { IncreasingAt(r.cache, q + 1, j); }
  }

  /** The leader has written batches in the epoch it answers with, or has later epochs. */
  ghost predicate Written(l: ReplicaLog, epoch: int) {
    && |l.cache| > 0
    && (EpochsUpTo(l.cache, epoch) < |l.cache| || l.cache[|l.cache| - 1].start < l.End())
  }

  /** A written answer that is not zero ends with a batch of the answered epoch. */
  lemma {:induction false} AnswerEpoch(l: ReplicaLog, epoch: int) returns (j: nat)
    requires l.Coherent() && Written(l, epoch) && AnswerOf(l, epoch).end > 0
    ensures j < |l.cache| && AnswerOf(l, epoch) == Reply(l.cache[j].epoch, EntryEnd(l.cache, j, l.End()))
    ensures l.cache[j].start < EntryEnd(l.cache, j, l.End()) <= l.End()
  {
    MirrorFirst(l.cache, l.batches);
    j := EpochsUpTo(l.cache, epoch) - 1;
    MirrorStarts(l.cache, l.batches);
    if j + 1 < |l.cache| { IncreasingAt(l.cache, j, j + 1); }
  }

  /** Batches that end where an entry of the leader ends, but are older than it, are no prefix of the leader. */
  lemma {:induction false} OlderAtEnd(l: ReplicaLog, j: nat, r: seq<Batch>, h: seq<Batch>)
    requires l.Coherent() && j < |l.cache| && l.batches <= h && IsLog(r) && |r| > 0
    requires l.cache[j].start < Leo(r) == EntryEnd(l.cache, j, l.End()) <= l.End()
    requires r[|r| - 1].epoch < l.cache[j].epoch
    ensures !(r <= h)
  {
    if r <= h {
      PrefixesMeet(r, l.batches, h);
      OwnerOfLast(l, j, |r| - 1);
    }
  }

  /** An unknown-epoch exit cuts at the answer; what is left is older than the answered epoch. */
  lemma {:induction false} UnknownLeft(f: ReplicaLog, a: Answer)
    requires f.Coherent() && Round(f, a).outcome == Unknown
    ensures a.Reply? && a.epoch >= 0 && a.end >= 0
    ensures var r := Round(f, a).log;
            && r.batches == UpTo(f.batches, Min(a.end, f.End())) && r.End() == Min(a.end, f.End()) && IsLog(r.batches)
            && (|r.batches| > 0 ==> r.batches[|r.batches| - 1].epoch < a.epoch)
  {
    var t := RoundCuts(f, a);
    TruncateIs(f, t);
    var r := Round(f, a).log.batches;
    if |r| > 0 { MirrorLatest(f.cache, f.batches, |r| - 1); }
  }

  /**
   On the unknown-epoch exit an answer within the follower's log is where the follower ends;
   unless that is nowhere, its last batch is older than the leader's batch at that place.
   */
  lemma {:induction false} UnknownCut(f: ReplicaLog, l: ReplicaLog, epoch: int, h: seq<Batch>)
    requires f.Coherent() && l.Coherent() && Written(l, epoch) && l.batches <= h
    requires Round(f, AnswerOf(l, epoch)).outcome == Unknown && AnswerOf(l, epoch).end <= f.End()
    ensures Round(f, AnswerOf(l, epoch)).log.End() == AnswerOf(l, epoch).end
    ensures Round(f, AnswerOf(l, epoch)).log.batches <= h <==> AnswerOf(l, epoch).end == 0
    ensures Round(f, AnswerOf(l, epoch)).log.batches == [] <==> AnswerOf(l, epoch).end == 0
  {
    var a := AnswerOf(l, epoch);
    UnknownLeft(f, a);
    ZeroIsEmpty(f.batches);
    if a.end > 0 {
      var j := AnswerEpoch(l, epoch);
      OlderAtEnd(l, j, Round(f, a).log.batches, h);
    }
  }

  // ----- When is a follower a prefix of the leader? -----

  /** The leader knows the epoch of the follower's last batch and has all of it. */
  predicate Confirmed(f: ReplicaLog, l: ReplicaLog) {
    |f.batches| == 0
    || (var e := f.batches[|f.batches| - 1].epoch;
        var a := EndOffsetFor(l.cache, e, l.End());
        a.Some? && a.value.epoch == e && a.value.end >= f.End())
  }

  /** One epoch query decides whether the follower is a prefix of the leader. */
  lemma {:induction false} PrefixIffConfirmed(f: ReplicaLog, l: ReplicaLog, hist: Histories)
    requires f.Coherent() && l.Coherent() && Grounded(f, hist) && Grounded(l, hist)
    ensures f.batches <= l.batches <==> Confirmed(f, l)
  {
    if |f.batches| > 0 {
      var n := |f.batches| - 1;
      var e := f.batches[n].epoch;
      if f.batches <= l.batches {
        assert l.batches[n] == f.batches[n];
        var j := EntryOf(l.cache, l.batches, n);
        EntryAnswers(l, j);
      }
      if Confirmed(f, l) {
        ConfirmedIsPrefix(f, l, hist);
      }
    }
  }

  lemma {:induction false} EntryAnswers(l: ReplicaLog, j: nat)
    requires Increasing(l.cache) && j < |l.cache|
    ensures EndOffsetFor(l.cache, l.cache[j].epoch, l.End())
         == Some(EpochEnd(l.cache[j].epoch, EntryEnd(l.cache, j, l.End())))
  {
    EpochsUpToEntry(l.cache, j);
    IncreasingAt(l.cache, j, |l.cache| - 1);
  }

  lemma {:induction false} ConfirmedIsPrefix(f: ReplicaLog, l: ReplicaLog, hist: Histories)
    requires f.Coherent() && l.Coherent() && Grounded(f, hist) && Grounded(l, hist)
    requires |f.batches| > 0 && Confirmed(f, l)
    ensures f.batches <= l.batches
  {
    var n := |f.batches| - 1;
    var e := f.batches[n].epoch;
    MirrorLatest(f.cache, f.batches, n);
    MirrorFirst(l.cache, l.batches);
    EndOffsetMonotone(f.batches, 0, 0, |f.batches|);
    assert f.batches[..|f.batches|] == f.batches;
    var i := EntryOf(f.cache, f.batches, n);
    EntryEndBoundary(f, i);
    var k := EpochsUpTo(l.cache, e);
    assert k > 0;
    SharedEpochCut(f, l, i, k - 1, hist);
    UpToAll(f.batches);
  }
}
