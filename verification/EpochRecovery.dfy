/**
 Rebuilding the leader-epoch cache at start-up, from the checkpoint file if it is usable and
 from the batches otherwise.
 */
module EpochRecovery {
  import opened Batches
  import opened EpochCache
  import opened EpochMirror

  /** Assigning entries one by one to an empty cache. */
  function Replayed(entries: seq<Entry>): seq<Entry> { AssignAll([], entries) }

  ghost predicate NonNegative(entries: seq<Entry>) {
    forall i :: 0 <= i < |entries| ==> entries[i].epoch >= 0
  }

  /** The batches that carry an epoch. */
  function WithEpoch(bs: seq<Batch>): seq<Batch> {
    if |bs| == 0 then []
    else
      var n := |bs| - 1;
      WithEpoch(bs[..n]) + (if bs[n].epoch >= 0 then [bs[n]] else [])
  }

  /** What the checkpoint gives, cut to the log end. */
  function FromCheckpoint(loaded: seq<Entry>, leo: nat): seq<Entry> { StartsBelow(Replayed(loaded), leo + 1) }

  /** What the batches alone give. */
  function FromLog(bs: seq<Batch>): seq<Entry> { StartsBelow(Replayed(Runs(WithEpoch(bs))), Leo(bs) + 1) }

  /** The cache recovered from the stored batches and what the checkpoint file says. */
  function Recovered(bs: seq<Batch>, loaded: seq<Entry>): seq<Entry> {
    if Leo(bs) > 0 && (Replayed(loaded) != loaded || |FromCheckpoint(loaded, Leo(bs))| == 0) then FromLog(bs)
    else FromCheckpoint(loaded, Leo(bs))
  }

  // ----- Replay -----

  lemma {:induction false} ReplayIncreasing(entries: seq<Entry>)
    requires Increasing(entries)
    ensures Replayed(entries) == entries
  {
    if |entries| > 0 {
      var n := |entries| - 1;
      assert entries[..n] + [entries[n]] == entries;
      PrefixIncreasing(entries, entries[..n]);
      ReplayIncreasing(entries[..n]);
      AssignAllSnoc([], entries[..n], entries[n]);
      if n > 0 { AssignPastEnd(entries[..n], entries[n]); }
    }
  }

  /** A replay changes nothing exactly when the entries are already a valid cache. */
  lemma {:induction false} ReplayIsIdentity(entries: seq<Entry>)
    requires NonNegative(entries)
    ensures Increasing(Replayed(entries))
    ensures Replayed(entries) == entries <==> Increasing(entries)
  {
    AssignAllIncreasing([], entries);
    if Increasing(entries) { ReplayIncreasing(entries); }
  }

  // ----- Scan -----

  lemma {:induction false} AllWithEpoch(bs: seq<Batch>)
    requires NonDecreasing(bs)
    ensures WithEpoch(bs) == bs
  {
    if |bs| > 0 {
      var n := |bs| - 1;
      AllWithEpoch(bs[..n]);
      NonDecreasingAt(bs, n, n);
      assert bs == bs[..n] + [bs[n]];
    }
  }

  lemma {:induction false} RunsWithEpoch(bs: seq<Batch>)
    ensures NonNegative(Runs(WithEpoch(bs)))
    ensures |Runs(WithEpoch(bs))| == 0 <==> |WithEpoch(bs)| == 0
    ensures |WithEpoch(bs)| > 0 ==>
              Runs(WithEpoch(bs))[|Runs(WithEpoch(bs))| - 1].epoch == WithEpoch(bs)[|WithEpoch(bs)| - 1].epoch
  {
    if |bs| > 0 {
      var n := |bs| - 1;
      RunsWithEpoch(bs[..n]);
      if bs[n].epoch >= 0 {
        RunsExtend(WithEpoch(bs[..n]), bs[n]);
      } else {
        assert WithEpoch(bs) == WithEpoch(bs[..n]);
      }
    }
  }

  lemma {:induction false} WithEpochStep(bs: seq<Batch>, i: nat)
    requires i < |bs|
    ensures WithEpoch(bs[..i + 1]) == if bs[i].epoch >= 0 then WithEpoch(bs[..i]) + [bs[i]] else WithEpoch(bs[..i])
  {
    assert bs[..i + 1][..i] == bs[..i];
  }

  function LastEpoch(bs: seq<Batch>): Option<int> {
    if |bs| == 0 then None else Some(bs[|bs| - 1].epoch)
  }

  /** The scan has seen the batches `w` that carry an epoch among the first `i`, and looks at one more. */
  lemma {:induction false} ScanStep(bs: seq<Batch>, i: nat, w: seq<Batch>, w': seq<Batch>)
    requires i < |bs| && w == WithEpoch(bs[..i]) && w' == if bs[i].epoch >= 0 then w + [bs[i]] else w
    ensures w' == WithEpoch(bs[..i + 1])
    ensures Runs(w') == if bs[i].epoch >= 0 && LastEpoch(w) != Some(bs[i].epoch)
                        then Runs(w) + [Entry(bs[i].epoch, bs[i].base)] else Runs(w)
  {
    WithEpochStep(bs, i);
    RunsExtend(w, bs[i]);
  }

  method ScanEpochHistory(bs: seq<Batch>) returns (entries: seq<Entry>)
    ensures entries == Runs(WithEpoch(bs))
  {
    entries := [];
    var lastEpoch: Option<int> := None;
    ghost var w: seq<Batch> := [];
    var i := 0;
    while i < |bs|
      invariant 0 <= i <= |bs| && w == WithEpoch(bs[..i])
      invariant entries == Runs(w) && lastEpoch == LastEpoch(w)
    {
      ghost var w' := if bs[i].epoch >= 0 then w + [bs[i]] else w;
      ScanStep(bs, i, w, w');
      if bs[i].epoch >= 0 && lastEpoch != Some(bs[i].epoch) {
        entries := entries + [Entry(bs[i].epoch, bs[i].base)];
        lastEpoch := Some(bs[i].epoch);
      }
      w := w';
      i := i + 1;
    }
    assert bs[..i] == bs;
  }

  method ReplayEntries(entries: seq<Entry>) returns (cache: LeaderEpochCache)
    requires NonNegative(entries)
    ensures fresh(cache) && cache.Valid() && cache.entries == Replayed(entries)
  {
    cache := new LeaderEpochCache();
    var i := 0;
    while i < |entries|
      invariant 0 <= i <= |entries| && cache.Valid() && cache.entries == Replayed(entries[..i])
    {
      assert entries[..i + 1] == entries[..i] + [entries[i]];
      AssignAllSnoc([], entries[..i], entries[i]);
      var changed, ok := cache.Assign(entries[i].epoch, entries[i].start);
      i := i + 1;
    }
    assert entries[..i] == entries;
  }

  /** The cache that the batches alone give. */
  method RecoverFromBatches(bs: seq<Batch>) returns (cache: LeaderEpochCache)
    ensures fresh(cache) && cache.Valid() && cache.entries == FromLog(bs)
  {
    RunsWithEpoch(bs);
    var history := ScanEpochHistory(bs);
    cache := ReplayEntries(history);
    var changed := cache.TruncateAfter(Leo(bs));
  }

  /** When the log is scanned, the checkpoint changes, unless it was empty before and after. */
  lemma {:induction false} ScanChanges(bs: seq<Batch>, loaded: seq<Entry>)
    requires NonNegative(loaded) && Leo(bs) > 0
    ensures var scanned := Replayed(loaded) != loaded || |FromCheckpoint(loaded, Leo(bs))| == 0;
            if |loaded| == 0 then scanned else scanned ==> Recovered(bs, loaded) != loaded
  {
    if |loaded| > 0 && Recovered(bs, loaded) == loaded {
      RecoveredIsValid(bs, loaded, 0);
      ReplayIsIdentity(loaded);
      StartsBelowUnique(loaded, Leo(bs) + 1, loaded);
    }
  }

  /** Recovers the cache; `rewrite` asks for the checkpoint file to be written anew. */
  method RecoverEpochCache(bs: seq<Batch>, loaded: seq<Entry>) returns (cache: LeaderEpochCache, rewrite: bool)
    requires NonNegative(loaded)
    ensures fresh(cache) && cache.Valid() && cache.entries == Recovered(bs, loaded)
    ensures rewrite <==> cache.entries != loaded || (|loaded| == 0 && Leo(bs) > 0)
  {
    var leo := Leo(bs);
    cache := ReplayEntries(loaded);
    var repaired := cache.entries != loaded;
    var changed := cache.TruncateAfter(leo);
    var scanned := false;
    if leo > 0 && (repaired || |cache.entries| == 0) {
      cache := RecoverFromBatches(bs);
      scanned := true;
    }
    rewrite := scanned || cache.entries != loaded;
    if leo > 0 { ScanChanges(bs, loaded); }
  }

  // ----- What recovery guarantees -----

  ghost predicate StartsAtMost(entries: seq<Entry>, m: nat) {
    forall i :: 0 <= i < |entries| ==> entries[i].start <= m
  }

  /** Assigning entries makes up no starts. */
  lemma {:induction false} ReplayedAtMost(entries: seq<Entry>, m: nat)
    requires StartsAtMost(entries, m)
    ensures StartsAtMost(Replayed(entries), m)
  {
    if |entries| > 0 {
      var n := |entries| - 1;
      ReplayedAtMost(entries[..n], m);
      var es := Replayed(entries[..n]);
      assert Below(es, entries[n].epoch, entries[n].start) <= es;
    }
  }

  lemma {:induction false} RunsAtMost(bs: seq<Batch>, m: nat)
    requires forall i :: 0 <= i < |bs| ==> bs[i].base <= m
    ensures StartsAtMost(Runs(WithEpoch(bs)), m)
  {
    if |bs| > 0 {
      var n := |bs| - 1;
      RunsAtMost(bs[..n], m);
      RunsExtend(WithEpoch(bs[..n]), bs[n]);
      if bs[n].epoch < 0 { assert WithEpoch(bs) == WithEpoch(bs[..n]); }
    }
  }

  /** Replaying and cutting gives a valid cache within the log, and makes up no starts. */
  lemma {:induction false} CutReplay(entries: seq<Entry>, leo: nat, m: nat)
    requires NonNegative(entries)
    ensures Increasing(FromCheckpoint(entries, leo)) && StartsAtMost(FromCheckpoint(entries, leo), leo)
    ensures StartsAtMost(entries, m) ==> StartsAtMost(FromCheckpoint(entries, leo), m)
  {
    ReplayIsIdentity(entries);
    PrefixIncreasing(Replayed(entries), FromCheckpoint(entries, leo));
    if StartsAtMost(entries, m) { ReplayedAtMost(entries, m); }
  }

  lemma {:induction false} FromLogValid(bs: seq<Batch>, m: nat)
    ensures Increasing(FromLog(bs)) && StartsAtMost(FromLog(bs), Leo(bs))
    ensures (forall i :: 0 <= i < |bs| ==> bs[i].base <= m) ==> StartsAtMost(FromLog(bs), m)
  {
    RunsWithEpoch(bs);
    CutReplay(Runs(WithEpoch(bs)), Leo(bs), m);
    if forall i :: 0 <= i < |bs| ==> bs[i].base <= m { RunsAtMost(bs, m); }
  }

  /**
   Whatever the checkpoint says, the recovered cache is valid, within the log, and no start is
   larger than those of the checkpoint and the bases of the log: the checkpoint can be written.
   */
  lemma {:induction false} RecoveredIsValid(bs: seq<Batch>, loaded: seq<Entry>, m: nat)
    requires NonNegative(loaded)
    ensures Increasing(Recovered(bs, loaded)) && StartsAtMost(Recovered(bs, loaded), Leo(bs))
    ensures StartsAtMost(loaded, m) && (forall i :: 0 <= i < |bs| ==> bs[i].base <= m) ==>
              StartsAtMost(Recovered(bs, loaded), m)
  {
    FromLogValid(bs, m);
    CutReplay(loaded, Leo(bs), m);
  }

  /** A valid checkpoint is used unless it says nothing about a log that is not empty. */
  lemma {:induction false} ValidIsUsed(bs: seq<Batch>, loaded: seq<Entry>)
    requires Increasing(loaded)
    ensures var cut := StartsBelow(loaded, Leo(bs) + 1);
            Recovered(bs, loaded) == if Leo(bs) > 0 && |cut| == 0 then FromLog(bs) else cut
  {
    ReplayIncreasing(loaded);
  }

  /** The checkpoint of the log itself is kept whole. */
  lemma {:induction false} CutNothing(es: seq<Entry>, bs: seq<Batch>)
    requires Mirrors(es, bs) && IsLog(bs)
    ensures StartsBelow(es, Leo(bs) + 1) == es
  {
    MirrorStarts(es, bs);
    StartsBelowUnique(es, Leo(bs) + 1, es);
  }

  lemma {:induction false} CutToPrefix(es: seq<Entry>, bs: seq<Batch>, kept: seq<Batch>)
    requires Mirrors(es, bs) && IsLog(bs) && kept < bs
    ensures StartsBelow(es, Leo(kept)) == Runs(kept)
  {
    assert kept == bs[..|kept|];
    TruncateKeepsMirror(es, bs, |kept|);
  }

  /** A cache of a longer log, cut after the end of a prefix, mirrors that prefix. */
  lemma {:induction false} CutCheckpoint(es: seq<Entry>, bs: seq<Batch>, kept: seq<Batch>)
    requires Mirrors(es, bs) && IsLog(bs) && kept < bs
    ensures Mirrors(StartsBelow(es, Leo(kept) + 1), kept)
  {
    CutToPrefix(es, bs, kept);
    CutMirrors(es, kept);
  }

  /** The first entry of a mirror survives every cut. */
  lemma {:induction false} CutKeepsFirst(es: seq<Entry>, bs: seq<Batch>, o: nat)
    requires Mirrors(es, bs) && IsLog(bs) && |bs| > 0
    ensures |StartsBelow(es, o + 1)| > 0
  {
    MirrorFirst(es, bs);
  }

  lemma {:induction false} CutMirrors(es: seq<Entry>, bs: seq<Batch>)
    requires Increasing(es) && StartsBelow(es, Leo(bs)) == Runs(bs)
    ensures Mirrors(StartsBelow(es, Leo(bs) + 1), bs)
  {
    var o := Leo(bs);
    var n := |StartsBelow(es, o)|;
    assert StartsBelow(es, o) == es[..n];
    assert n > 0 ==> es[n - 1] == StartsBelow(es, o)[n - 1];
    CutAfter(es, o, n);
    MirrorsWithTrailing(es, bs, n);
  }

  /** Cutting after `o` keeps the entries before `n`, and entry `n` if it starts at `o`. */
  lemma {:induction false} CutAfter(es: seq<Entry>, o: nat, n: nat)
    requires Increasing(es) && n <= |es|
    requires n > 0 ==> es[n - 1].start < o
    requires n < |es| ==> es[n].start >= o
    ensures StartsBelow(es, o + 1) == if n < |es| && es[n].start == o then es[..n + 1] else es[..n]
  {
    if n < |es| && es[n].start == o {
      if n + 1 < |es| { IncreasingAt(es, n, n + 1); }
      StartsBelowUnique(es, o + 1, es[..n + 1]);
    } else {
      StartsBelowUnique(es, o + 1, es[..n]);
    }
  }

  /** The cache of a prefix with one entry more, at the end of the prefix. */
  lemma {:induction false} MirrorsWithTrailing(es: seq<Entry>, bs: seq<Batch>, n: nat)
    requires Increasing(es) && n <= |es| && es[..n] == Runs(bs)
    ensures Mirrors(es[..n], bs)
    ensures n < |es| && es[n].start == Leo(bs) ==> Mirrors(es[..n + 1], bs)
  {
    PrefixIncreasing(es, es[..n]);
    if n < |es| {
      PrefixIncreasing(es, es[..n + 1]);
      assert es[..n + 1][..n] == es[..n];
    }
  }

  /**
   After a crash that lost the end of the log, the checkpoint written for the longer log still
   recovers a cache that mirrors what survived; with nothing lost it is kept as it is.
   */
  lemma {:induction false} RecoversLostTail(checkpoint: seq<Entry>, bs: seq<Batch>, kept: seq<Batch>)
    requires Mirrors(checkpoint, bs) && IsLog(bs) && kept <= bs
    ensures Mirrors(Recovered(kept, checkpoint), kept)
    ensures kept == bs ==> Recovered(kept, checkpoint) == checkpoint
  {
    ValidIsUsed(kept, checkpoint);
    if |kept| > 0 { CutKeepsFirst(checkpoint, bs, Leo(kept)); }
    if |kept| == |bs| {
      assert kept == bs;
      CutNothing(checkpoint, bs);
    } else {
      CutCheckpoint(checkpoint, bs, kept);
    }
  }

  /** Scanning a log whose epochs never fall gives its compression. */
  lemma {:induction false} ScanRecovers(bs: seq<Batch>)
    requires IsLog(bs) && NonDecreasing(bs)
    ensures FromLog(bs) == Runs(bs)
    ensures Mirrors(Runs(bs), bs)
  {
    AllWithEpoch(bs);
    RunsIncreasing(bs);
    ReplayIncreasing(Runs(bs));
    CutNothing(Runs(bs), bs);
  }

  /** Without a usable checkpoint the log alone decides: the cache mirrors it iff epochs never fall. */
  lemma {:induction false} RecoversFromLog(bs: seq<Batch>, loaded: seq<Entry>)
    requires IsLog(bs) && |bs| > 0 && NonNegative(loaded)
    requires !Increasing(loaded) || |StartsBelow(loaded, Leo(bs) + 1)| == 0
    ensures Mirrors(Recovered(bs, loaded), bs) <==> NonDecreasing(bs)
    ensures NonDecreasing(bs) ==> Recovered(bs, loaded) == Runs(bs)
  {
    ReplayIsIdentity(loaded);
    assert bs[|bs| - 1].WellFormed();
    if NonDecreasing(bs) {
      ScanRecovers(bs);
    } else if Mirrors(Recovered(bs, loaded), bs) {
      MirrorRuns(Recovered(bs, loaded), bs);
      IncreasingRunsNonDecreasing(bs);
    }
  }

  /**
   A usable checkpoint of an earlier, shorter log is trusted. The cache then mirrors the log if
   and only if everything written since carries the latest epoch of the checkpoint.
   */
  lemma {:induction false} RecoversGrownLog(loaded: seq<Entry>, old_: seq<Batch>, bs: seq<Batch>)
    requires Mirrors(loaded, old_) && |loaded| > 0 && IsLog(bs) && old_ <= bs
    ensures Recovered(bs, loaded) == loaded
    ensures Mirrors(Recovered(bs, loaded), bs) <==>
            forall i :: |old_| <= i < |bs| ==> bs[i].epoch == loaded[|loaded| - 1].epoch
  {
    KeepsCheckpoint(loaded, old_, bs);
    if forall i :: |old_| <= i < |bs| ==> bs[i].epoch == loaded[|loaded| - 1].epoch {
      assert old_ + bs[|old_|..] == bs;
      LeaderAppendKeepsMirror(loaded, old_, bs[|old_|..]);
    }
    if Mirrors(loaded, bs) {
      forall i | |old_| <= i < |bs| ensures bs[i].epoch == loaded[|loaded| - 1].epoch {
        LaterIsLatest(loaded, old_, bs, i);
      }
    }
  }

  lemma {:induction false} KeepsCheckpoint(loaded: seq<Entry>, old_: seq<Batch>, bs: seq<Batch>)
    requires Mirrors(loaded, old_) && |loaded| > 0 && IsLog(bs) && old_ <= bs
    ensures Recovered(bs, loaded) == loaded
    ensures IsLog(old_) && Leo(old_) <= Leo(bs) && StartsAtMost(loaded, Leo(old_))
  {
    assert old_ == bs[..|old_|] && bs == bs[..|bs|];
    PrefixContiguous(bs, 0, |old_|);
    EndOffsetMonotone(bs, 0, |old_|, |bs|);
    MirrorStarts(loaded, old_);
    ValidIsUsed(bs, loaded);
    StartsBelowUnique(loaded, Leo(bs) + 1, loaded);
  }

  lemma {:induction false} LaterIsLatest(loaded: seq<Entry>, old_: seq<Batch>, bs: seq<Batch>, i: nat)
    requires Mirrors(loaded, bs) && IsLog(bs) && |old_| <= i < |bs| && old_ <= bs && StartsAtMost(loaded, Leo(old_))
    ensures |loaded| > 0 && bs[i].epoch == loaded[|loaded| - 1].epoch
  {
    var j := EntryOf(loaded, bs, i);
    assert bs[..|old_|] == old_ && bs[i].WellFormed() && bs[i].base == Leo(bs[..i]);
    EndOffsetMonotone(bs, 0, |old_|, i);
  }

  /** A checkpoint that is valid but older than the log is trusted, and the cache then misses epochs. */
  lemma {:induction false} StaleCheckpointIsTrusted(body: seq<Byte>) returns (bs: seq<Batch>, loaded: seq<Entry>)
    ensures IsLog(bs) && NonDecreasing(bs) && |bs| > 1 && Mirrors(loaded, bs[..1])
    ensures Recovered(bs, loaded) == loaded && !Mirrors(loaded, bs)
  {
    var a, b := Batch(0, 1, 0, 61, body), Batch(1, 1, 1, 61, body);
    bs, loaded := [a, b], [Entry(0, 0)];
    AppendOne(a, b);
    assert bs[..1] == [a];
    SingleRun(a);
    RecoversGrownLog(loaded, [a], bs);
  }

  lemma {:induction false} AppendOne(a: Batch, b: Batch)
    requires a == Batch(0, 1, 0, 61, a.body) && b == Batch(1, 1, 1, 61, b.body)
    ensures IsLog([a, b]) && NonDecreasing([a, b]) && Leo([a, b]) == 2
    ensures Runs([a, b]) == [Entry(0, 0), Entry(1, 1)]
  {
    assert [a, b][..1] == [a] && [a, b][..0] == [] && [a][..0] == [];
    assert [a, b] == [a] + [b] && [a] == [] + [a];
    RunsExtend([], a);
    RunsExtend([a], b);
  }
}
