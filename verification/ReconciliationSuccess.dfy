/**
 When reconciliation succeeds. A round fails exactly when the leader does not answer, or when
 its answer ends inside a batch of the follower. A follower that is a prefix of its leader
 never meets such an answer.
 */
module ReconciliationSuccess {
  import opened Batches
  import opened EpochCache
  import opened EpochMirror
  import opened Reconciliation
  import opened ReconciliationRuns

  // ----- One round -----

  /** The answer ends inside a batch that is not later than the answered epoch. */
  ghost predicate Splits(a: Answer, bs: seq<Batch>)
    requires a.Reply?
  {
    exists i :: 0 <= i < |bs| && bs[i].epoch <= a.epoch && bs[i].base < a.end < bs[i].End()
  }

  /** A leader answers unless it has no epoch yet, or is asked for a later one than it has. */
  lemma {:induction false} AnswerDefined(l: ReplicaLog, epoch: int)
    requires l.Coherent()
    ensures AnswerOf(l, epoch).Reply?
    ensures var a := AnswerOf(l, epoch);
            if |l.cache| > 0 && 0 <= epoch <= l.cache[|l.cache| - 1].epoch
            then 0 <= a.epoch <= epoch && a.end >= 0 else a.epoch < 0 && a.end < 0
  {
    var k := EpochsUpTo(l.cache, epoch);
    if k > 0 { IncreasingAt(l.cache, k - 1, k - 1); }
  }

  /** Offsets within a log are boundaries unless some batch contains them. */
  lemma {:induction false} BoundaryUnlessInside(bs: seq<Batch>, o: nat)
    requires IsLog(bs) && o <= Leo(bs)
    ensures IsBoundary(bs, o) <==> !exists i :: 0 <= i < |bs| && bs[i].base < o < bs[i].End()
  {
    var k := CountUpTo(bs, o);
    CountUpToAt(bs, o);
    assert k < |bs| ==> bs[k].base == Leo(bs[..k]);
    if k == |bs| { UpToAll(bs); }
    forall i | 0 <= i < |bs| && bs[i].base < o < bs[i].End() ensures !IsBoundary(bs, o) {
      if i < k {
        assert bs[..i + 1][i] == bs[i];
        EndOffsetMonotone(bs, 0, i + 1, k);
      } else {
        OffsetsInOrder(bs, k, i);
      }
    }
  }

  lemma {:induction false} PastAll(bs: seq<Batch>, o: nat)
    requires IsLog(bs) && Leo(bs) <= o
    ensures forall i :: 0 <= i < |bs| ==> bs[i].End() <= o
  {
    forall i | 0 <= i < |bs| ensures bs[i].End() <= o {
      EndOffsetMonotone(bs, 0, i + 1, |bs|);
      assert bs[..i + 1][i] == bs[i] && bs[..|bs|] == bs;
    }
  }

  /** Where the epochs up to `epoch` end in a follower: everything before was written by them. */
  lemma {:induction false} LocalEnd(f: ReplicaLog, epoch: int, i: nat)
    requires f.Coherent() && i < |f.batches| && EndOffsetFor(f.cache, epoch, f.End()).Some?
    ensures var end := EndOffsetFor(f.cache, epoch, f.End()).value.end;
            && IsBoundary(f.batches, end) && end <= f.End()
            && (f.batches[i].epoch <= epoch ==> f.batches[i].End() <= end)
            && (f.batches[i].End() <= end ==> f.batches[i].epoch <= epoch)
  {
    var es, k := f.cache, EpochsUpTo(f.cache, epoch);
    MirrorFirst(es, f.batches);
    ZeroIsEmpty(f.batches);
    var j := EntryOf(es, f.batches, i);
    assert f.batches[i].WellFormed();
    if k == 0 {
      IncreasingAt(es, 0, j);
    } else {
      EntryEndBoundary(f, k - 1);
      if f.batches[i].epoch <= epoch {
        if k <= j { IncreasingAt(es, k, j); }
        if j < k - 1 { IncreasingAt(es, j + 1, k - 1); }
        if j < k - 1 && k < |es| { IncreasingAt(es, j + 1, k); }
        EntryEndBoundary(f, j);
        MirrorStarts(es, f.batches);
      }
      if f.batches[i].End() <= EntryEnd(es, k - 1, f.End()) { BatchBeforeEnd(f, k - 1, i); }
    }
  }

  /** A batch that contains the truncation offset contains the answer, and is of an answered epoch. */
  lemma {:induction false} InsideIsSplit(f: ReplicaLog, a: Answer, i: nat)
    requires f.Coherent() && a.Reply? && a.epoch >= 0 && a.end >= 0 && i < |f.batches|
    ensures var t := TruncationOffset(f, EndOffsetFor(f.cache, a.epoch, f.End()), a.end);
            f.batches[i].base < t < f.batches[i].End() <==>
            f.batches[i].epoch <= a.epoch && f.batches[i].base < a.end < f.batches[i].End()
  {
    var local, b := EndOffsetFor(f.cache, a.epoch, f.End()), f.batches[i];
    EndOffsetMonotone(f.batches, 0, i + 1, |f.batches|);
    assert f.batches[..i + 1][i] == b && f.batches[..|f.batches|] == f.batches;
    MirrorLatest(f.cache, f.batches, i);
    if local.Some? {
      LocalEnd(f, a.epoch, i);
      BoundaryUnlessInside(f.batches, local.value.end);
      assert !(b.base < local.value.end < b.End());
    }
  }

  /** A round fails if and only if there is no answer, or it splits a batch of the follower. */
  lemma {:induction false} RejectedIffSplit(f: ReplicaLog, a: Answer)
    requires f.Coherent()
    ensures Round(f, a).outcome == Rejected <==> a.Failed? || a.epoch < 0 || a.end < 0 || Splits(a, f.batches)
    ensures Round(f, a).outcome == Rejected ==> Round(f, a).log == f
  {
    if a.Reply? && a.epoch >= 0 && a.end >= 0 {
      var t := TruncationOffset(f, EndOffsetFor(f.cache, a.epoch, f.End()), a.end);
      TruncateSucceeds(f, t);
      BoundaryUnlessInside(f.batches, t);
      forall i | 0 <= i < |f.batches|
        ensures f.batches[i].base < t < f.batches[i].End() <==>
                f.batches[i].epoch <= a.epoch && f.batches[i].base < a.end < f.batches[i].End()
      {
        InsideIsSplit(f, a, i);
      }
    }
  }

  /**
   When the leader answers with an epoch that the follower has, too, the round settles, and the
   follower ends where the epoch ends first.
   */
  lemma {:induction false} SharedEpochSettles(f: ReplicaLog, l: ReplicaLog, epoch: int, i: nat, hist: Histories)
    requires f.Coherent() && l.Coherent() && Grounded(f, hist) && Grounded(l, hist)
    requires i < |f.cache| && AnswerOf(l, epoch).epoch == f.cache[i].epoch
    ensures var r := Round(f, AnswerOf(l, epoch));
            && r.outcome == Settled && r.log.batches <= l.batches
            && r.log.End() == Min(EntryEnd(f.cache, i, f.End()), AnswerOf(l, epoch).end)
  {
    var a := AnswerOf(l, epoch);
    IncreasingAt(f.cache, i, i);
    AnswerDefined(l, epoch);
    EntryAnswers(f, i);
    EntryEndBoundary(f, i);
    var j := EndOffsetForIs(l.cache, epoch, l.End());
    if j == |l.cache| {
      MirrorFirst(l.cache, l.batches);
      ZeroIsEmpty(f.batches);
    } else {
      SharedEpochCut(f, l, i, j, hist);
    }
    var t := TruncationOffset(f, EndOffsetFor(f.cache, a.epoch, f.End()), a.end);
    TruncateSucceeds(f, t);
    TruncateIs(f, t);
    SettledRoundIsPrefix(f, l, epoch, hist);
  }

  // ----- A follower that is a prefix -----

  /** Every call is answered, from the leader's state at that round. */
  ghost predicate Answered(ask: Oracle, leaders: seq<ReplicaLog>) {
    forall i: nat, e: int :: i < |leaders| ==> ask(i, e) == AnswerOf(leaders[i], e)
  }

  /** A round of a follower that is a prefix changes nothing, and cannot fail once it is answered. */
  lemma {:induction false} PrefixRound(f: ReplicaLog, l: ReplicaLog, epoch: int)
    requires f.Coherent() && l.Coherent() && f.batches <= l.batches && EpochsAtMost(f.batches, epoch)
    requires |l.cache| > 0 && 0 <= epoch <= l.cache[|l.cache| - 1].epoch
    ensures var a := AnswerOf(l, epoch);
            && a.Reply? && 0 <= a.epoch <= epoch && EpochsAtMost(f.batches, a.epoch)
            && Round(f, a) == RoundResult(f, Verdict(EndOffsetFor(f.cache, a.epoch, f.End()), a.epoch))
  {
    var a := AnswerOf(l, epoch);
    AnswerDefined(l, epoch);
    LeaderEndPastCommon(l, epoch, f.batches);
    PastAll(f.batches, a.end);
    RejectedIffSplit(f, a);
    RoundOnPrefix(f, l, epoch);
  }

  /** A cache has at most one entry later than the last batch. */
  lemma {:induction false} LastEntries(f: ReplicaLog, j: nat)
    requires f.Coherent() && j + 1 < |f.cache| && EpochsAtMost(f.batches, f.cache[j + 1].epoch - 1)
    ensures |f.batches| > 0 && f.batches[|f.batches| - 1].epoch == f.cache[j].epoch
  {
    var n := |Runs(f.batches)|;
    MirrorRuns(f.cache, f.batches);
    if n > j + 1 {
      var i := RunStart(f.batches, j + 1);
      assert false;
    }
    RunsLast(f.batches);
  }

  /** A round of a prefix settles, or hands on the epoch of the follower's last batch. */
  lemma {:induction false} PrefixOutcome(f: ReplicaLog, l: ReplicaLog, epoch: int)
    requires f.Coherent() && l.Coherent() && f.batches <= l.batches && EpochsAtMost(f.batches, epoch)
    requires |l.cache| > 0 && 0 <= epoch <= l.cache[|l.cache| - 1].epoch
    requires |f.cache| > 0 && epoch <= f.cache[|f.cache| - 1].epoch
    ensures var r := Round(f, AnswerOf(l, epoch));
            && r.log == f
            && (r.outcome == Settled || (|f.batches| > 0 && r.outcome == Continue(f.batches[|f.batches| - 1].epoch)))
  {
    var a := AnswerOf(l, epoch);
    PrefixRound(f, l, epoch);
    var k := EpochsUpTo(f.cache, a.epoch);
    if k > 0 && f.cache[k - 1].epoch != a.epoch { LastEntries(f, k - 1); }
  }

  /** Asked for the epoch of a batch that it has, a leader answers with that epoch. */
  lemma {:induction false} LastEpochSettles(f: ReplicaLog, l: ReplicaLog)
    requires f.Coherent() && l.Coherent() && f.batches <= l.batches && |f.batches| > 0
    ensures Round(f, AnswerOf(l, f.batches[|f.batches| - 1].epoch)) == RoundResult(f, Settled)
  {
    var n := |f.batches| - 1;
    var e := f.batches[n].epoch;
    assert l.batches[n] == f.batches[n];
    var i := EntryOf(f.cache, f.batches, n);
    var j := EntryOf(l.cache, l.batches, n);
    EntryAnswers(l, j);
    EntryAnswers(f, i);
    IncreasingAt(l.cache, j, |l.cache| - 1);
    LastEpochLargest(f.batches, f.cache);
    PrefixRound(f, l, e);
  }

  lemma {:induction false} LastEpochLargest(bs: seq<Batch>, es: seq<Entry>)
    requires IsLog(bs) && Mirrors(es, bs) && |bs| > 0
    ensures EpochsAtMost(bs, bs[|bs| - 1].epoch)
  {
    MirrorRuns(es, bs);
    RunsLast(bs);
    forall i | 0 <= i < |bs| ensures bs[i].epoch <= bs[|bs| - 1].epoch {
      var j := RunOf(bs, i);
      IncreasingAt(Runs(bs), j, |Runs(bs)| - 1);
    }
  }

  lemma {:induction false} FirstRounds(round: RoundFn, f: ReplicaLog, epoch: int)
    ensures var r := round(f, epoch, 0);
            Rounds(round, f, epoch, 0)
            == if !r.outcome.Continue? then RunResult(r.log, ExitOf(r.outcome), 1, epoch)
               else Rounds(round, r.log, r.outcome.epoch, 1)
    ensures var r := round(f, epoch, 1);
            !r.outcome.Continue? ==> Rounds(round, f, epoch, 1) == RunResult(r.log, ExitOf(r.outcome), 2, epoch)
  {
  }

  /** The run of a follower that is a prefix of the leader in the first two rounds. */
  lemma {:induction false} TwoRounds(f: ReplicaLog, l0: ReplicaLog, l1: ReplicaLog, round: RoundFn, epoch: int)
    requires f.Coherent() && l0.Coherent() && l1.Coherent() && f.batches <= l0.batches && f.batches <= l1.batches
    requires Latest(f.cache) == Some(epoch) && |l0.cache| > 0 && epoch <= l0.cache[|l0.cache| - 1].epoch
    requires forall e: int :: round(f, e, 0) == Round(f, AnswerOf(l0, e))
    requires forall e: int :: round(f, e, 1) == Round(f, AnswerOf(l1, e))
    ensures var r := Rounds(round, f, epoch, 0); r.log == f && r.rounds <= 2 && r.exit == Agreed
  {
    IncreasingAt(f.cache, |f.cache| - 1, |f.cache| - 1);
    EpochsAtMostLatest(f);
    FirstRounds(round, f, epoch);
    PrefixOutcome(f, l0, epoch);
    if round(f, epoch, 0).outcome.Continue? {
      LastEpochSettles(f, l1);
      FirstRounds(round, f, f.batches[|f.batches| - 1].epoch);
    }
  }

  lemma {:induction false} Unanswered(f: ReplicaLog, l0: ReplicaLog, round: RoundFn, epoch: int)
    requires f.Coherent() && l0.Coherent() && (|l0.cache| == 0 || epoch > l0.cache[|l0.cache| - 1].epoch)
    requires round(f, epoch, 0) == Round(f, AnswerOf(l0, epoch))
    ensures Rounds(round, f, epoch, 0) == RunResult(f, Error, 1, epoch)
  {
    AnswerDefined(l0, epoch);
    RejectedIffSplit(f, AnswerOf(l0, epoch));
    FirstRounds(round, f, epoch);
  }

  /**
   A follower that is a prefix of its leader agrees with it within two rounds and without
   being cut, if and only if it has no later epoch than the leader.
   */
  lemma {:induction false} PrefixAgrees(f: ReplicaLog, ask: Oracle, leaders: seq<ReplicaLog>)
    requires Leading(leaders) && Answered(ask, leaders) && f.Coherent() && f.batches <= leaders[0].batches
    ensures var r, cache := Reconcile(f, ask), leaders[0].cache;
            && r.log == f && r.rounds <= 2
            && r.exit == if |f.cache| == 0
                            || (|cache| > 0 && f.cache[|f.cache| - 1].epoch <= cache[|cache| - 1].epoch)
                         then Agreed else Error
  {
    if |f.cache| > 0 {
      var epoch, round, cache := f.cache[|f.cache| - 1].epoch, RoundWith(ask), leaders[0].cache;
      assert leaders[0].batches <= leaders[1].batches;
      if |cache| > 0 && epoch <= cache[|cache| - 1].epoch {
        TwoRounds(f, leaders[0], leaders[1], round, epoch);
      } else {
        Unanswered(f, leaders[0], round, epoch);
      }
    }
  }

  // ----- Whole runs -----

  /** The epoch that is asked for is one the leader can answer. */
  ghost predicate Knowable(g: ReplicaLog, e: int, cache: seq<Entry>) {
    g.Coherent() && |cache| > 0 && 0 <= e <= cache[|cache| - 1].epoch
  }

  ghost function KnowableInv(cache: seq<Entry>): (ReplicaLog, int, nat) -> bool {
    (g: ReplicaLog, e: int, i: nat) => Knowable(g, e, cache)
  }

  lemma {:induction false} NextIsEarlier(g: ReplicaLog, l: ReplicaLog, e: int)
    requires Knowable(g, e, l.cache) && l.Coherent() && Round(g, AnswerOf(l, e)).outcome.Continue?
    ensures var r := Round(g, AnswerOf(l, e));
            Knowable(r.log, r.outcome.epoch, l.cache) && r.outcome.epoch < l.cache[|l.cache| - 1].epoch
  {
    AnswerDefined(l, e);
    RoundShrinks(g, AnswerOf(l, e));
    var j := RoundContinues(g, AnswerOf(l, e));
    IncreasingAt(g.cache, j, j);
  }

  lemma {:induction false} KnowableInductive(ask: Oracle, leaders: seq<ReplicaLog>, cache: seq<Entry>)
    requires Leading(leaders) && Answered(ask, leaders) && OneEpoch(leaders, cache)
    ensures Inductive(RoundWith(ask), KnowableInv(cache))
  {
    var inv, round := KnowableInv(cache), RoundWith(ask);
    forall g: ReplicaLog, e: int, i: nat
      | i < MAX_ATTEMPTS && inv(g, e, i) && round(g, e, i).outcome.Continue?
      ensures inv(round(g, e, i).log, round(g, e, i).outcome.epoch, i + 1)
    {
      assert ask(i, e) == AnswerOf(leaders[i], e);
      NextIsEarlier(g, leaders[i], e);
    }
  }

  /** What a round leaves is not split by its answer, unless the round failed. */
  lemma {:induction false} SplitsWhatIsLeft(g: ReplicaLog, a: Answer)
    requires g.Coherent() && a.Reply? && a.epoch >= 0 && a.end >= 0
    ensures Splits(a, Round(g, a).log.batches) <==> Round(g, a).outcome == Rejected
  {
    RejectedIffSplit(g, a);
    if Round(g, a).outcome != Rejected {
      var t := RoundCuts(g, a);
      TruncateIs(g, t);
      PastAll(UpTo(g.batches, t), a.end);
    }
  }

  /**
   A run in which every call is answered, against a leader with no earlier epoch than the
   follower, fails if and only if the last answer ends inside a batch of the follower.
   */
  lemma {:induction false} ErrorIffSplit(f: ReplicaLog, ask: Oracle, leaders: seq<ReplicaLog>, cache: seq<Entry>)
    requires Leading(leaders) && Answered(ask, leaders) && OneEpoch(leaders, cache) && f.Coherent()
    requires |cache| > 0 && |f.cache| > 0 && f.cache[|f.cache| - 1].epoch <= cache[|cache| - 1].epoch
    requires Reconcile(f, ask).exit != NotConverged
    ensures var r := Reconcile(f, ask);
            && 0 < r.rounds <= MAX_ATTEMPTS && ask(r.rounds - 1, r.asked).Reply?
            && (r.exit == Error <==> Splits(ask(r.rounds - 1, r.asked), r.log.batches))
  {
    var epoch := f.cache[|f.cache| - 1].epoch;
    IncreasingAt(f.cache, |f.cache| - 1, |f.cache| - 1);
    KnowableInductive(ask, leaders, cache);
    assert KnowableInv(cache)(f, epoch, 0);
    var g, e, i := LastRound(RoundWith(ask), KnowableInv(cache), f, epoch, 0);
    assert Knowable(g, e, cache);
    assert ask(i, e) == AnswerOf(leaders[i], e);
    AnswerDefined(leaders[i], e);
    SplitsWhatIsLeft(g, ask(i, e));
  }

  // ----- Leaders whose epochs start between the follower's batches -----

  ghost predicate Aligned(bs: seq<Batch>, cache: seq<Entry>) {
    forall i, j :: 0 <= i < |bs| && 0 <= j < |cache| ==> !(bs[i].base < cache[j].start < bs[i].End())
  }

  /** The follower as it was, or one that asks for an earlier epoch than the leader's. */
  ghost predicate OnBoundaries(f: ReplicaLog, g: ReplicaLog, e: int, cache: seq<Entry>) {
    && Knowable(g, e, cache) && g.batches <= f.batches
    && (e < cache[|cache| - 1].epoch || (g == f && Latest(f.cache) == Some(e)))
  }

  ghost function OnBoundariesInv(f: ReplicaLog, cache: seq<Entry>): (ReplicaLog, int, nat) -> bool {
    (g: ReplicaLog, e: int, i: nat) => OnBoundaries(f, g, e, cache)
  }

  lemma {:induction false} OnBoundariesInductive(f: ReplicaLog, ask: Oracle, leaders: seq<ReplicaLog>,
                                                 cache: seq<Entry>)
    requires Leading(leaders) && Answered(ask, leaders) && OneEpoch(leaders, cache)
    ensures Inductive(RoundWith(ask), OnBoundariesInv(f, cache))
  {
    var inv, round := OnBoundariesInv(f, cache), RoundWith(ask);
    forall g: ReplicaLog, e: int, i: nat
      | i < MAX_ATTEMPTS && inv(g, e, i) && round(g, e, i).outcome.Continue?
      ensures inv(round(g, e, i).log, round(g, e, i).outcome.epoch, i + 1)
    {
      assert ask(i, e) == AnswerOf(leaders[i], e);
      NextIsEarlier(g, leaders[i], e);
      RoundShrinks(g, ask(i, e));
    }
  }

  lemma {:induction false} AlignedRound(f: ReplicaLog, g: ReplicaLog, e: int, l: ReplicaLog, hist: Histories)
    requires l.Coherent() && Grounded(l, hist) && Grounded(f, hist) && Aligned(f.batches, l.cache)
    requires OnBoundaries(f, g, e, l.cache)
    ensures Round(g, AnswerOf(l, e)).outcome != Rejected
  {
    var a, n := AnswerOf(l, e), |l.cache| - 1;
    AnswerDefined(l, e);
    if e < l.cache[n].epoch {
      assert exists j :: 0 <= j <= n && a.end == l.cache[j].start by {
        assert a.end == l.cache[EpochsUpTo(l.cache, e)].start;
      }
      assert forall i :: 0 <= i < |g.batches| ==> g.batches[i] == f.batches[i];
      RejectedIffSplit(g, a);
    } else {
      EntryAnswers(l, n);
      SharedEpochSettles(f, l, e, |f.cache| - 1, hist);
    }
  }

  /** Against a leader whose epochs all start between the follower's batches, no run fails. */
  lemma {:induction false} AlignedNeverFails(f: ReplicaLog, ask: Oracle, leaders: seq<ReplicaLog>,
                                             cache: seq<Entry>, hist: Histories)
    requires Leading(leaders) && Answered(ask, leaders) && OneEpoch(leaders, cache)
    requires f.Coherent() && Grounded(f, hist) && forall i :: 0 <= i < |leaders| ==> Grounded(leaders[i], hist)
    requires |cache| > 0 && (|f.cache| > 0 ==> f.cache[|f.cache| - 1].epoch <= cache[|cache| - 1].epoch)
    requires Aligned(f.batches, cache)
    ensures Reconcile(f, ask).exit != Error
  {
    if |f.cache| > 0 {
      var epoch := f.cache[|f.cache| - 1].epoch;
      IncreasingAt(f.cache, |f.cache| - 1, |f.cache| - 1);
      OnBoundariesInductive(f, ask, leaders, cache);
      var inv, round := OnBoundariesInv(f, cache), RoundWith(ask);
      forall g: ReplicaLog, e: int, i: nat | i < MAX_ATTEMPTS && inv(g, e, i)
        ensures round(g, e, i).outcome != Rejected
      {
        assert ask(i, e) == AnswerOf(leaders[i], e);
        AlignedRound(f, g, e, leaders[i], hist);
      }
      NeverRejected(round, inv, f, epoch);
    }
  }

  lemma {:induction false} NeverRejected(round: RoundFn, inv: (ReplicaLog, int, nat) -> bool, f: ReplicaLog, epoch: int)
    requires inv(f, epoch, 0) && Inductive(round, inv)
    requires forall g, e, i: nat :: i < MAX_ATTEMPTS && inv(g, e, i) ==> round(g, e, i).outcome != Rejected
    ensures Rounds(round, f, epoch, 0).exit != Error
  {
    var g, e, i := LastRound(round, inv, f, epoch, 0);
  }
}
