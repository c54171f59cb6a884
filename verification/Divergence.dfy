/**
 Concrete inputs on which two plausible claims about the replication code fail. The exact
 conditions are `UnknownExitIsPrefix` and `ReplicaAppendMirror`.
 */
module Divergence {
  import opened Batches
  import opened EpochCache
  import opened EpochMirror
  import opened Reconciliation
  import opened ReconciliationRuns

  function Single(base: nat, epoch: int): Batch { Batch(base, 1, epoch, RECORD_BATCH_OVERHEAD, []) }

  function FollowerBatches(): seq<Batch> { [Single(0, 1), Single(1, 1), Single(2, 3), Single(3, 5)] }

  function LeaderBatches(): seq<Batch> { [Single(0, 2), Single(1, 4), Single(2, 6)] }

  function Follower(): ReplicaLog {
    ReplicaLog(FollowerBatches(), [Entry(1, 0), Entry(3, 2), Entry(5, 3)])
  }

  function Leader(): ReplicaLog {
    ReplicaLog(LeaderBatches(), [Entry(2, 0), Entry(4, 1), Entry(6, 2)])
  }

  /** Each epoch had one leader, whose log both replicas follow. */
  function SharedHistory(): Histories {
    map[1 := FollowerBatches()[..2], 3 := FollowerBatches()[..3], 5 := FollowerBatches(),
        2 := LeaderBatches()[..1], 4 := LeaderBatches()[..2], 6 := LeaderBatches()]
  }

  lemma {:induction false} ThreeIncreasing(a: Entry, b: Entry, c: Entry)
    requires 0 <= a.epoch < b.epoch < c.epoch && a.start < b.start < c.start
    ensures Increasing([a, b, c])
  {
    assert [a][..0] == [] && [a] + [b] == [a, b] && [a, b] + [c] == [a, b, c];
    AppendIncreasing([a], b);
    AppendIncreasing([a, b], c);
  }

  lemma {:induction false} FollowerCoherent()
    ensures Follower().Coherent()
  {
    var f := FollowerBatches();
    assert f[..0] == [] && f[..1] == [Single(0, 1)] && f[..2] == [Single(0, 1), Single(1, 1)];
    assert f[..3] == [Single(0, 1), Single(1, 1), Single(2, 3)];
    assert f[..3][..2] == f[..2] && f[..2][..1] == f[..1] && f[..1][..0] == [];
    assert Runs(f[..1]) == [Entry(1, 0)];
    assert Runs(f[..2]) == [Entry(1, 0)];
    assert Runs(f[..3]) == [Entry(1, 0), Entry(3, 2)];
    assert Runs(f) == [Entry(1, 0), Entry(3, 2), Entry(5, 3)];
    ThreeIncreasing(Entry(1, 0), Entry(3, 2), Entry(5, 3));
  }

  lemma {:induction false} LeaderCoherent()
    ensures Leader().Coherent()
  {
    var l := LeaderBatches();
    assert l[..0] == [] && l[..1] == [Single(0, 2)] && l[..2] == [Single(0, 2), Single(1, 4)];
    assert l[..2][..1] == l[..1] && l[..1][..0] == [];
    assert Runs(l[..1]) == [Entry(2, 0)];
    assert Runs(l[..2]) == [Entry(2, 0), Entry(4, 1)];
    assert Runs(l) == [Entry(2, 0), Entry(4, 1), Entry(6, 2)];
    ThreeIncreasing(Entry(2, 0), Entry(4, 1), Entry(6, 2));
  }

  lemma {:induction false} GroundedAt(r: ReplicaLog, j: nat, k: nat, hist: Histories)
    requires r.Coherent() && j < |r.cache| && k <= |r.batches|
    requires EntryEnd(r.cache, j, r.End()) == Leo(r.batches[..k])
    requires r.cache[j].epoch in hist && r.batches[..k] <= hist[r.cache[j].epoch]
    ensures EntryGrounded(r, j, hist)
  {
    CountUpToBoundary(r.batches, k);
  }

  lemma {:induction false} FollowerGrounded()
    ensures Grounded(Follower(), SharedHistory())
  {
    FollowerCoherent();
    var f := FollowerBatches();
    assert EntryGrounded(Follower(), 0, SharedHistory()) by { GroundedAt(Follower(), 0, 2, SharedHistory()); }
    assert EntryGrounded(Follower(), 1, SharedHistory()) by { GroundedAt(Follower(), 1, 3, SharedHistory()); }
    assert f[..4] == f;
    assert EntryGrounded(Follower(), 2, SharedHistory()) by { GroundedAt(Follower(), 2, 4, SharedHistory()); }
  }

  lemma {:induction false} LeaderGrounded()
    ensures Grounded(Leader(), SharedHistory())
  {
    LeaderCoherent();
    var l := LeaderBatches();
    assert EntryGrounded(Leader(), 0, SharedHistory()) by { GroundedAt(Leader(), 0, 1, SharedHistory()); }
    assert EntryGrounded(Leader(), 1, SharedHistory()) by { GroundedAt(Leader(), 1, 2, SharedHistory()); }
    assert l[..3] == l;
    assert EntryGrounded(Leader(), 2, SharedHistory()) by { GroundedAt(Leader(), 2, 3, SharedHistory()); }
  }

  /** Two rounds that end on an epoch the follower has dropped in between. */
  ghost predicate TwoRounds(f: ReplicaLog, l: ReplicaLog, f1: ReplicaLog, f2: ReplicaLog) {
    && Latest(f.cache) == Some(5)
    && AnswerOf(l, 5) == Reply(4, 2) && AnswerOf(l, 3) == Reply(2, 1)
    && EndOffsetFor(f.cache, 4, f.End()) == Some(EpochEnd(3, 3)) && f.End() == 4
    && Truncate(f, 2) == Some(f1)
    && EndOffsetFor(f1.cache, 2, f1.End()) == None && f1.End() == 2
    && Truncate(f1, 1) == Some(f2)
  }

  lemma {:induction false} TwoRoundsEnd(f: ReplicaLog, l: ReplicaLog, f1: ReplicaLog, f2: ReplicaLog, ask: Oracle)
    requires TwoRounds(f, l, f1, f2) && forall i, e :: ask(i, e) == AnswerOf(l, e)
    ensures Reconcile(f, ask) == RunResult(f2, UnknownEpoch, 2, 3)
  {
    var round := RoundWith(ask);
    assert round(f, 5, 0) == RoundResult(f1, Continue(3));
    assert round(f1, 3, 1) == RoundResult(f2, Unknown);
    assert Rounds(round, f1, 3, 1) == RunResult(f2, UnknownEpoch, 2, 3);
  }

  lemma {:induction false} EntryEpochs(es: seq<Entry>, e: int, k: nat)
    requires k <= |es| && (forall i :: 0 <= i < k ==> es[i].epoch <= e)
    requires k < |es| ==> es[k].epoch > e
    ensures EpochsUpTo(es, e) == k
  {
  }

  /** Cutting after `k` batches keeps the entries that start before the cut. */
  lemma {:induction false} TruncateAt(r: ReplicaLog, k: nat, kept: nat)
    requires r.Coherent() && k < |r.batches|
    requires 0 < kept <= |r.cache| && r.cache[kept - 1].start < Leo(r.batches[..k])
    requires kept < |r.cache| ==> r.cache[kept].start >= Leo(r.batches[..k])
    ensures Truncate(r, Leo(r.batches[..k])) == Some(ReplicaLog(r.batches[..k], r.cache[..kept]))
    ensures ReplicaLog(r.batches[..k], r.cache[..kept]).Coherent()
  {
    var o := Leo(r.batches[..k]);
    CountUpToBoundary(r.batches, k);
    PrefixEnd(r.batches, r.batches[..k]);
    StartsBelowUnique(r.cache, o, r.cache[..kept]);
    TruncateIs(r, o);
  }

  lemma {:induction false} SampleAnswers()
    ensures AnswerOf(Leader(), 5) == Reply(4, 2) && AnswerOf(Leader(), 3) == Reply(2, 1)
    ensures EndOffsetFor(Follower().cache, 4, 4) == Some(EpochEnd(3, 3))
  {
    EntryEpochs(Leader().cache, 5, 2);
    EntryEpochs(Leader().cache, 3, 1);
    EntryEpochs(Follower().cache, 4, 2);
  }

  lemma {:induction false} SampleCuts() returns (f1: ReplicaLog, f2: ReplicaLog)
    ensures Truncate(Follower(), 2) == Some(f1) && Truncate(f1, 1) == Some(f2)
    ensures f1.cache == [Entry(1, 0)] && f1.End() == 2 && f2.batches == [Single(0, 1)]
  {
    FollowerCoherent();
    var f := Follower();
    assert f.batches[..2] == [Single(0, 1), Single(1, 1)];
    TruncateAt(f, 2, 1);
    f1 := ReplicaLog(f.batches[..2], f.cache[..1]);
    assert f1.batches[..1] == [Single(0, 1)];
    TruncateAt(f1, 1, 1);
    f2 := ReplicaLog(f1.batches[..1], f1.cache[..1]);
  }

  /**
   A reconciliation that succeeds because the follower no longer knows the answered epoch can
   leave a follower that is not a prefix of the leader: here they differ at offset 0.
   */
  lemma {:induction false} UnknownExitCanDiverge(ask: Oracle)
    requires forall i, e :: ask(i, e) == AnswerOf(Leader(), e)
    ensures Follower().Coherent() && Leader().Coherent()
    ensures Grounded(Follower(), SharedHistory()) && Grounded(Leader(), SharedHistory())
    ensures var r := Reconcile(Follower(), ask);
            r.exit == UnknownEpoch && !(r.log.batches <= Leader().batches)
  {
    FollowerCoherent();
    LeaderCoherent();
    FollowerGrounded();
    LeaderGrounded();
    SampleAnswers();
    var f1, f2 := SampleCuts();
    TwoRoundsEnd(Follower(), Leader(), f1, f2, ask);
  }

  const STORED: seq<Batch> := [Single(0, 1)]

  const FETCHED: seq<Batch> := [Single(1, 1)]

  const UNUSED_EPOCH: seq<Entry> := [Entry(1, 0), Entry(2, 1)]

  lemma {:induction false} UnusedEpochMirrors()
    ensures Mirrors(UNUSED_EPOCH, STORED) && IsLog(STORED + FETCHED) && NonDecreasing(FETCHED)
  {
    SingleRun(Single(0, 1));
    assert UNUSED_EPOCH[..1] == [Entry(1, 0)];
    assert (STORED + FETCHED)[..0] == [] && (STORED + FETCHED)[..1] == STORED;
    assert FETCHED[..0] == [];
  }

  lemma {:induction false} EpochOneRestarts()
    ensures AssignAll(UNUSED_EPOCH, Runs(FETCHED)) == [Entry(1, 1)]
  {
    SingleRun(Single(1, 1));
    AssignedIs(UNUSED_EPOCH, 1, 1, 0);
    AssignAllSnoc(UNUSED_EPOCH, [], Entry(1, 1));
    assert [] + [Entry(1, 1)] == [Entry(1, 1)];
  }

  /**
   A follower that led epoch 2 without writing keeps an entry at its log end. Fetching more
   batches of epoch 1 then makes the cache forget where epoch 1 really began.
   */
  lemma {:induction false} ReplicaAppendCanCutHistory()
    ensures Mirrors(UNUSED_EPOCH, STORED) && IsLog(STORED + FETCHED)
    ensures AssignAll(UNUSED_EPOCH, Runs(FETCHED)) == [Entry(1, 1)]
    ensures !Mirrors(AssignAll(UNUSED_EPOCH, Runs(FETCHED)), STORED + FETCHED)
  {
    UnusedEpochMirrors();
    EpochOneRestarts();
    ReplicaAppendMirror(UNUSED_EPOCH, STORED, FETCHED);
  }
}
