/**
 Whole runs of one partition: any sequence of role changes, appends, replica appends,
 fetches, ISR updates and truncations, accepted or rejected.
 */
module PartitionRuns {
  import opened Batches
  import opened EpochCache
  import opened EpochMirror
  import opened Reconciliation
  import opened PartitionModel

  datatype Op =
    | Lead(epoch: int, ids: seq<int>)
    | LeadNew(epoch: int, ids: seq<int>)
    | Follow(epoch: int, leader: int)
    | Unassign
    | SetIsr(epoch: int, ids: seq<int>)
    | Produce(data: seq<Batch>, maxBytes: nat)
    | Replicate(data: seq<Batch>, epoch: int, leaderHw: nat)
    | Cut(offset: nat)
    | Fetch(epoch: int, follower: int, offset: nat)
    | Close

  /** A reassigned leader keeps its high watermark; a leader of a new topic starts at its log end. */
  function Apply(st: State, op: Op): State {
    match op
    case Lead(epoch, ids) => MakeLeader(st, epoch, ids, st.hw).state
    case LeadNew(epoch, ids) => MakeLeader(st, epoch, ids, st.End()).state
    case Follow(epoch, leader) => MakeFollower(st, epoch, leader)
    case Unassign => MakeUnassigned(st)
    case SetIsr(epoch, ids) => UpdateLeaderIsr(st, epoch, ids).state
    case Produce(data, maxBytes) => AppendRaw(st, data, maxBytes).state
    case Replicate(data, epoch, leaderHw) => AppendFromLeader(st, data, epoch, leaderHw).state
    case Cut(offset) => TruncateTo(st, offset).state
    case Fetch(epoch, follower, offset) => FollowerFetch(st, epoch, follower, offset).state
    case Close => st.(closed := true)
  }

  function Run(st: State, ops: seq<Op>): State {
    if |ops| == 0 then st else Apply(Run(st, ops[..|ops| - 1]), ops[|ops| - 1])
  }

  /** Batches that passed validation. */
  ghost predicate Validated(op: Op) {
    && (op.Produce? ==> WellFormedData(op.data))
    && (op.Replicate? ==> WellFormedData(op.data))
  }

  // ----- High watermark -----

  ghost predicate HwWithinLog(st: State) { IsLog(st.log.batches) && st.hw <= st.End() }

  lemma {:induction false} AdvanceHwBounds(st: State)
    ensures AdvanceHw(st).hw >= st.hw
    ensures st.hw <= st.End() ==> AdvanceHw(st).hw <= st.End()
    ensures AdvanceHw(st) == st.(hw := AdvanceHw(st).hw)
  {
  }

  /** A replica append extends the log, coherent or not. */
  lemma {:induction false} AppendReplicaExtends(r: ReplicaLog, data: seq<Batch>, fetchEpoch: int)
    requires IsLog(r.batches) && WellFormedData(data)
    ensures IsLog(AppendReplica(r, data, fetchEpoch).0.batches)
    ensures r.End() <= AppendReplica(r, data, fetchEpoch).0.End()
  {
    var added := Added(r, data, fetchEpoch);
    if |added| > 0 {
      assert forall i :: 0 <= i < |added| ==> added[i] == data[i];
      OffsetsFollowLog(added, r.End());
      ConcatLog(r.batches, added);
      EndOffsetMonotone(added, r.End(), 0, |added|);
      assert added[..|added|] == added;
    }
  }

  lemma {:induction false} AppendStampedExtends(r: ReplicaLog, data: seq<Batch>, epoch: int, maxBytes: nat)
    requires IsLog(r.batches) && WellFormedData(data)
    ensures IsLog(AppendStamped(r, data, epoch, maxBytes).0.batches)
    ensures r.End() <= AppendStamped(r, data, epoch, maxBytes).0.End()
  {
    StampLog(data, r.End(), epoch);
    ConcatLog(r.batches, Stamp(data, r.End(), epoch));
  }

  lemma {:induction false} TruncateShrinks(r: ReplicaLog, o: nat)
    requires IsLog(r.batches) && Truncate(r, o).Some?
    ensures IsLog(Truncate(r, o).value.batches) && Truncate(r, o).value.End() == o
  {
    PrefixContiguous(r.batches, 0, CountUpTo(r.batches, o));
  }

  lemma {:induction false} HwReplicate(st: State, data: seq<Batch>, epoch: int, leaderHw: nat)
    requires HwWithinLog(st) && WellFormedData(data)
    ensures var st' := AppendFromLeader(st, data, epoch, leaderHw).state;
            HwWithinLog(st') && st.hw <= st'.hw
  {
    AppendReplicaExtends(st.log, data, epoch);
  }

  lemma {:induction false} HwProduce(st: State, data: seq<Batch>, maxBytes: nat)
    requires HwWithinLog(st) && WellFormedData(data)
    ensures var st' := AppendRaw(st, data, maxBytes).state;
            HwWithinLog(st') && st.hw <= st'.hw
  {
    AppendStampedExtends(st.log, data, st.leaderEpoch, maxBytes);
    AdvanceHwBounds(st.(log := AppendStamped(st.log, data, st.leaderEpoch, maxBytes).0));
  }

  /** No operation puts HW past the log end, and only a truncation of a non-leader lowers it. */
  lemma {:induction false} HwStep(st: State, op: Op)
    requires HwWithinLog(st) && Validated(op)
    ensures HwWithinLog(Apply(st, op))
    ensures Apply(st, op).hw < st.hw ==> op.Cut? && !st.isLeader && Apply(st, op).hw == Apply(st, op).End()
  {
    match op
    case SetIsr(epoch, ids) => AdvanceHwBounds(st.(isr := NewIsr(st.isr, ids)));
    case Produce(data, maxBytes) => HwProduce(st, data, maxBytes);
    case Replicate(data, epoch, leaderHw) => HwReplicate(st, data, epoch, leaderHw);
    case Cut(offset) =>
      if Truncate(st.log, offset).Some? { TruncateShrinks(st.log, offset); }
    case Fetch(epoch, follower, offset) => AdvanceHwBounds(st.(isr := RecordLeo(st.isr, follower, offset)));
    case _ =>
  }

  /** HW stays within the log over every run. */
  lemma {:induction false} HwWithinLogAlways(st: State, ops: seq<Op>)
    requires HwWithinLog(st) && forall i :: 0 <= i < |ops| ==> Validated(ops[i])
    ensures HwWithinLog(Run(st, ops))
  {
    if |ops| > 0 {
      var n := |ops| - 1;
      HwWithinLogAlways(st, ops[..n]);
      HwStep(Run(st, ops[..n]), ops[n]);
    }
  }

  /** Over every run without a truncation, and over every run that stays leader, HW only grows. */
  lemma {:induction false} HwGrows(st: State, ops: seq<Op>)
    requires HwWithinLog(st) && forall i :: 0 <= i < |ops| ==> Validated(ops[i])
    requires forall i :: 0 <= i < |ops| ==> !ops[i].Cut? || Run(st, ops[..i]).isLeader
    ensures st.hw <= Run(st, ops).hw
  {
    if |ops| > 0 {
      var n := |ops| - 1;
      var init := ops[..n];
      forall i | 0 <= i < n ensures !init[i].Cut? || Run(st, init[..i]).isLeader {
        assert init[..i] == ops[..i];
      }
      HwGrows(st, init);
      HwWithinLogAlways(st, init);
      HwStep(Run(st, init), ops[n]);
    }
  }

  // ----- Mirror -----

  /** The first batch a replica append adds does not fall behind the cache. */
  ghost predicate Fits(st: State, op: Op) {
    op.Replicate? && |op.data| > 0 && AppendFromLeader(st, op.data, op.epoch, op.leaderHw).error.None? ==>
      var added := Added(st.log, op.data, op.epoch);
      |added| > 0 ==> FirstEpochFits(st.log.cache, st.log.batches, added[0].epoch)
  }

  lemma {:induction false} LeadStep(st: State, epoch: int, ids: seq<int>, initialHw: nat)
    requires Inv(st) && initialHw <= st.End()
    ensures Inv(MakeLeader(st, epoch, ids, initialHw).state)
  {
    if MakeLeader(st, epoch, ids, initialHw).error.None? {
      AssignKeepsMirror(st.log.cache, st.log.batches, epoch);
    }
  }

  lemma {:induction false} ProduceStep(st: State, data: seq<Batch>, maxBytes: nat)
    requires Inv(st) && WellFormedData(data)
    ensures Inv(AppendRaw(st, data, maxBytes).state)
  {
    if AppendRaw(st, data, maxBytes).error.None? {
      AppendStampedCoherent(st.log, data, st.leaderEpoch, maxBytes);
      AdvanceHwBounds(st.(log := AppendStamped(st.log, data, st.leaderEpoch, maxBytes).0));
    }
  }

  lemma {:induction false} ReplicateStep(st: State, data: seq<Batch>, epoch: int, leaderHw: nat)
    requires Inv(st) && WellFormedData(data)
    ensures var s := AppendFromLeader(st, data, epoch, leaderHw);
            var added := Added(st.log, data, epoch);
            Inv(s.state) <==>
            (s.error.None? && |data| > 0 && |added| > 0 ==>
               FirstEpochFits(st.log.cache, st.log.batches, added[0].epoch))
  {
    HwReplicate(st, data, epoch, leaderHw);
    if AppendFromLeader(st, data, epoch, leaderHw).error.None? && |data| > 0 {
      AppendReplicaCoherent(st.log, data, epoch);
    }
  }

  lemma {:induction false} CutStep(st: State, offset: nat)
    requires Inv(st)
    ensures Inv(TruncateTo(st, offset).state)
  {
    if Truncate(st.log, offset).Some? { TruncateIs(st.log, offset); }
  }

  /**
   Every operation keeps the partition invariant (the cache mirrors the log, a leader leads
   the latest cached epoch) except a replica append whose first batch does not fit, which
   always breaks it.
   */
  lemma {:induction false} InvStep(st: State, op: Op)
    requires Inv(st) && Validated(op)
    ensures Inv(Apply(st, op)) <==> Fits(st, op)
  {
    match op
    case Lead(epoch, ids) => LeadStep(st, epoch, ids, st.hw);
    case LeadNew(epoch, ids) => LeadStep(st, epoch, ids, st.End());
    case SetIsr(epoch, ids) => AdvanceHwBounds(st.(isr := NewIsr(st.isr, ids)));
    case Produce(data, maxBytes) => ProduceStep(st, data, maxBytes);
    case Replicate(data, epoch, leaderHw) => ReplicateStep(st, data, epoch, leaderHw);
    case Cut(offset) => CutStep(st, offset);
    case Fetch(epoch, follower, offset) => AdvanceHwBounds(st.(isr := RecordLeo(st.isr, follower, offset)));
    case _ =>
  }

  /** The invariant holds throughout every run whose replica appends fit. */
  lemma {:induction false} InvAlways(st: State, ops: seq<Op>)
    requires Inv(st) && forall i :: 0 <= i < |ops| ==> Validated(ops[i])
    requires forall i :: 0 <= i < |ops| ==> Fits(Run(st, ops[..i]), ops[i])
    ensures Inv(Run(st, ops))
  {
    if |ops| > 0 {
      var n := |ops| - 1;
      var init := ops[..n];
      forall i | 0 <= i < n ensures Fits(Run(st, init[..i]), init[i]) {
        assert init[..i] == ops[..i];
      }
      InvAlways(st, init);
      InvStep(Run(st, init), ops[n]);
    }
  }
}
