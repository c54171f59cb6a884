/**
 What each operation of a partition does to its log, epoch cache, role, ISR and high
 watermark. Operations on one partition are atomic steps; the class `Partition` refines
 them and the cluster model composes them.
 */
module PartitionModel {
  import opened Batches
  import opened EpochCache
  import opened EpochMirror
  import opened Reconciliation

  /** Largest offset the log can hold (unsigned 64-bit). */
  const MAX_OFFSET: nat := 0xFFFF_FFFF_FFFF_FFFF

  datatype IsrEntry = IsrEntry(broker: int, leo: nat)

  datatype Error =
    | NotLeaderOrFollower
    | FencedLeaderEpoch
    | UnknownLeaderEpoch
    | OffsetOutOfRange
    | CorruptMessage
    | MessageTooLarge
    | UnexpectedAppendOffset
    | InvalidTruncation
    | StaleLeaderEpoch
    | InvalidLeaderEpoch
    | PartitionClosed
    | InvalidRequiredAcks
    | StorageError

  datatype State = State(
    local: int,
    log: ReplicaLog,
    hw: nat,
    isLeader: bool,
    leaderEpoch: int,
    leaderId: int,
    isr: seq<IsrEntry>,
    closed: bool)
  {
    function End(): nat { log.End() }
  }

  datatype Step = Step(state: State, error: Option<Error>)

  function Done(st: State): Step { Step(st, None) }

  function Fail(st: State, e: Error): Step { Step(st, Some(e)) }

  // ----- High watermark -----

  /** The smallest log end offset among the leader and the other ISR members. */
  function IsrMin(isr: seq<IsrEntry>, local: int, leo: nat): (m: nat)
    ensures m <= leo
    ensures forall i :: 0 <= i < |isr| && isr[i].broker != local ==> m <= isr[i].leo
  {
    if |isr| == 0 then leo
    else
      var m := IsrMin(isr[1..], local, leo);
      assert forall i :: 1 <= i < |isr| ==> isr[i] == isr[1..][i - 1];
      if isr[0].broker != local && isr[0].leo < m then isr[0].leo else m
  }

  /** A leader with an ISR raises its high watermark to the ISR minimum, never lowers it. */
  function AdvanceHw(st: State): State {
    if !st.isLeader || |st.isr| == 0 then st
    else
      var m := IsrMin(st.isr, st.local, st.End());
      if m <= st.hw then st else st.(hw := m)
  }

  // ----- Roles -----

  function FreshIsr(ids: seq<int>): (r: seq<IsrEntry>)
    ensures |r| == |ids| && forall i :: 0 <= i < |ids| ==> r[i] == IsrEntry(ids[i], 0)
  {
    seq(|ids|, i requires 0 <= i < |ids| => IsrEntry(ids[i], 0))
  }

  function MakeLeader(st: State, epoch: int, ids: seq<int>, initialHw: nat): Step {
    if Latest(st.log.cache).Some? && epoch < Latest(st.log.cache).value then Fail(st, StaleLeaderEpoch)
    else if epoch < 0 then Fail(st.(isLeader := false, leaderId := -1, isr := []), InvalidLeaderEpoch)
    else Done(st.(log := st.log.(cache := Assigned(st.log.cache, epoch, st.End())),
                  leaderEpoch := epoch, leaderId := st.local, isr := FreshIsr(ids),
                  hw := initialHw, isLeader := true))
  }

  function MakeFollower(st: State, epoch: int, leader: int): State {
    st.(isLeader := false, leaderEpoch := epoch, leaderId := leader, isr := [])
  }

  function MakeUnassigned(st: State): State {
    st.(isLeader := false, leaderId := -1, isr := [])
  }

  /** The offset last recorded for a broker; 0 if it was not in the ISR. */
  function RecordedLeo(isr: seq<IsrEntry>, id: int): nat {
    if |isr| == 0 then 0
    else if isr[|isr| - 1].broker == id then isr[|isr| - 1].leo
    else RecordedLeo(isr[..|isr| - 1], id)
  }

  function NewIsr(isr: seq<IsrEntry>, ids: seq<int>): (r: seq<IsrEntry>)
    ensures |r| == |ids| && forall i :: 0 <= i < |ids| ==> r[i] == IsrEntry(ids[i], RecordedLeo(isr, ids[i]))
  {
    seq(|ids|, i requires 0 <= i < |ids| => IsrEntry(ids[i], RecordedLeo(isr, ids[i])))
  }

  function UpdateLeaderIsr(st: State, epoch: int, ids: seq<int>): Step {
    if !st.isLeader || st.leaderEpoch != epoch || st.leaderId != st.local then Fail(st, NotLeaderOrFollower)
    else Done(AdvanceHw(st.(isr := NewIsr(st.isr, ids))))
  }

  // ----- Leader append -----

  /** Batches that passed validation. */
  predicate WellFormedData(data: seq<Batch>) {
    forall i :: 0 <= i < |data| ==> data[i].WellFormed()
  }

  /** Consecutive base offsets from `from`, and the leader's epoch. */
  function Stamp(data: seq<Batch>, from: nat, epoch: int): (r: seq<Batch>)
    ensures |r| == |data|
  {
    if |data| == 0 then []
    else
      var n := |data| - 1;
      Stamp(data[..n], from, epoch) + [data[n].(base := from + Records(data[..n]), epoch := epoch)]
  }

  function Records(data: seq<Batch>): nat {
    if |data| == 0 then 0 else Records(data[..|data| - 1]) + data[|data| - 1].count
  }

  /** The last offset of a run counted from its first, as a leader append reports it: in 32 bits. */
  function LastOffsetDelta(data: seq<Batch>): nat { (Records(data) - 1) % TWO_TO_32 }

  /** The high watermark that a request waits for whose batches were stored from `first` on. */
  function RequiredHw(first: nat, data: seq<Batch>): nat { first + LastOffsetDelta(data) + 1 }

  predicate AnyTooLarge(data: seq<Batch>, maxBytes: nat) {
    exists i :: 0 <= i < |data| && data[i].size > maxBytes
  }

  /** The log part of a leader append. */
  function AppendStamped(r: ReplicaLog, data: seq<Batch>, epoch: int, maxBytes: nat): (ReplicaLog, Option<Error>) {
    if |data| == 0 then (r, Some(CorruptMessage))
    else if AnyTooLarge(data, maxBytes) then (r, Some(MessageTooLarge))
    else if r.End() + Records(data) > MAX_OFFSET then (r, Some(CorruptMessage))
    else (r.(batches := r.batches + Stamp(data, r.End(), epoch)), None)
  }

  function AppendRaw(st: State, data: seq<Batch>, maxBytes: nat): Step {
    if !st.isLeader then Fail(st, NotLeaderOrFollower)
    else if st.closed then Fail(st, PartitionClosed)
    else
      var (log, err) := AppendStamped(st.log, data, st.leaderEpoch, maxBytes);
      if err.Some? then Fail(st, err.value) else Done(AdvanceHw(st.(log := log)))
  }

  // ----- Replica append -----

  /** The leading batches whose epoch is not past the fetch epoch. */
  function Accepted(data: seq<Batch>, fetchEpoch: int): (r: seq<Batch>)
    ensures r <= data
    ensures forall i :: 0 <= i < |r| ==> r[i].epoch <= fetchEpoch
    ensures |r| < |data| ==> data[|r|].epoch > fetchEpoch
  {
    if |data| == 0 || data[0].epoch > fetchEpoch then []
    else
      var t := Accepted(data[1..], fetchEpoch);
      assert t <= data[1..];
      [data[0]] + t
  }

  /** Each batch starts where the previous one ends, the first at `from`. */
  predicate OffsetsFollow(data: seq<Batch>, from: nat) {
    |data| > 0 ==>
      data[|data| - 1].base == EndOffset(data[..|data| - 1], from) && OffsetsFollow(data[..|data| - 1], from)
  }

  predicate EpochsFollow(data: seq<Batch>) {
    |data| > 1 ==>
      data[|data| - 2].epoch <= data[|data| - 1].epoch && EpochsFollow(data[..|data| - 1])
  }

  /** What is wrong with the first batch that does not follow the one before it. */
  function FirstFault(data: seq<Batch>, from: nat): Error
    requires !(OffsetsFollow(data, from) && EpochsFollow(data))
  {
    var n := |data| - 1;
    if !(OffsetsFollow(data[..n], from) && EpochsFollow(data[..n])) then FirstFault(data[..n], from)
    else if data[n].base != EndOffset(data[..n], from) then UnexpectedAppendOffset
    else CorruptMessage
  }

  /** The log part of a replica append. */
  function AppendReplica(r: ReplicaLog, data: seq<Batch>, fetchEpoch: int): (ReplicaLog, Option<Error>) {
    var accepted := Accepted(data, fetchEpoch);
    if |data| == 0 then (r, Some(CorruptMessage))
    else if |accepted| == 0 then (r, None)
    else if !(OffsetsFollow(accepted, r.End()) && EpochsFollow(accepted)) then
      (r, Some(FirstFault(accepted, r.End())))
    else if accepted[0].epoch < 0 then (r, Some(InvalidLeaderEpoch))
    else (ReplicaLog(r.batches + accepted, AssignAll(r.cache, Runs(accepted))), None)
  }

  function AppendFromLeader(st: State, data: seq<Batch>, fetchEpoch: int, leaderHw: nat): Step {
    if st.closed then Fail(st, PartitionClosed)
    else if st.isLeader || st.leaderId < 0 || st.leaderId == st.local then Fail(st, NotLeaderOrFollower)
    else if fetchEpoch < st.leaderEpoch then Fail(st, FencedLeaderEpoch)
    else if fetchEpoch > st.leaderEpoch then Fail(st, UnknownLeaderEpoch)
    else
      var (log, err) := if |data| == 0 then (st.log, None) else AppendReplica(st.log, data, fetchEpoch);
      if err.Some? then Fail(st, err.value)
      else
        var candidate := Min(leaderHw, log.End());
        Done(st.(log := log, hw := if candidate > st.hw then candidate else st.hw))
  }

  // ----- Truncation -----

  /** The state with a shorter log, and the high watermark within it. */
  function Trimmed(st: State, log: ReplicaLog): State { st.(log := log, hw := Min(st.hw, log.End())) }

  function TruncateTo(st: State, o: nat): Step {
    if st.isLeader then Fail(st, NotLeaderOrFollower)
    else
      match Truncate(st.log, o)
      case None => Fail(st.(hw := Min(st.hw, st.End())), InvalidTruncation)
      case Some(log) => Done(st.(log := log, hw := Min(st.hw, log.End())))
  }

  // ----- Follower fetch -----

  /** The first entry of the broker takes the fetched offset. */
  function RecordLeo(isr: seq<IsrEntry>, id: int, leo: nat): (r: seq<IsrEntry>)
    ensures |r| == |isr|
    ensures forall i :: 0 <= i < |isr| ==>
                          r[i] == isr[i] || (isr[i].broker == id && r[i] == IsrEntry(id, leo))
  {
    if |isr| == 0 then []
    else if isr[0].broker == id then [IsrEntry(id, leo)] + isr[1..]
    else
      var t := RecordLeo(isr[1..], id, leo);
      assert forall i :: 1 <= i < |isr| ==> isr[i] == isr[1..][i - 1];
      [isr[0]] + t
  }

  function UpdateFollowerLeo(st: State, id: int, leo: nat): State {
    AdvanceHw(st.(isr := RecordLeo(st.isr, id, leo)))
  }

  /** Negative epochs are not checked. */
  function ValidateLeaderEpoch(requested: int, current: int): Option<Error> {
    if requested < 0 then None
    else if requested < current then Some(FencedLeaderEpoch)
    else if requested > current then Some(UnknownLeaderEpoch)
    else None
  }

  /** What a fetch of a follower does to the leader; reading the log changes nothing. */
  function FollowerFetch(st: State, epoch: int, id: int, offset: nat): Step {
    if !st.isLeader then Fail(st, NotLeaderOrFollower)
    else if ValidateLeaderEpoch(epoch, st.leaderEpoch).Some? then
      Fail(st, ValidateLeaderEpoch(epoch, st.leaderEpoch).value)
    else if st.closed then Fail(st, PartitionClosed)
    else if offset > st.End() then Fail(st, OffsetOutOfRange)
    else Done(UpdateFollowerLeo(st, id, offset))
  }

  // ----- Invariant of one partition -----

  /** The cache mirrors the log, a leader leads the latest cached epoch, and HW is within the log. */
  ghost predicate Inv(st: State) {
    && st.log.Coherent()
    && st.hw <= st.End()
    && (st.isLeader ==> Latest(st.log.cache) == Some(st.leaderEpoch) && st.leaderId == st.local)
  }

  lemma {:induction false} AppendOneContiguous(bs: seq<Batch>, from: nat, b: Batch)
    requires Contiguous(bs, from) && b.WellFormed() && b.base == EndOffset(bs, from)
    ensures Contiguous(bs + [b], from) && EndOffset(bs + [b], from) == b.End()
  {
    var a := bs + [b];
    forall i | 0 <= i < |a| ensures a[i].WellFormed() && a[i].base == EndOffset(a[..i], from) {
      assert a[..i] == bs[..i];
      assert bs[..|bs|] == bs;
    }
  }

  lemma {:induction false} StampEpochs(data: seq<Batch>, from: nat, epoch: int)
    ensures forall i :: 0 <= i < |data| ==> Stamp(data, from, epoch)[i].epoch == epoch
  {
    if |data| > 0 { StampEpochs(data[..|data| - 1], from, epoch); }
  }

  lemma {:induction false} StampContiguous(data: seq<Batch>, from: nat, epoch: int)
    requires WellFormedData(data)
    ensures Contiguous(Stamp(data, from, epoch), from)
    ensures EndOffset(Stamp(data, from, epoch), from) == from + Records(data)
  {
    if |data| > 0 {
      var n := |data| - 1;
      StampContiguous(data[..n], from, epoch);
      var s, b := Stamp(data[..n], from, epoch), data[n].(base := from + Records(data[..n]), epoch := epoch);
      assert data[n].WellFormed();
      assert Stamp(data, from, epoch) == s + [b];
      AppendOneContiguous(s, from, b);
    }
  }

  /** Stamped batches follow one another from `from`, in the leader's epoch, with their records kept. */
  lemma {:induction false} StampLog(data: seq<Batch>, from: nat, epoch: int)
    requires WellFormedData(data)
    ensures Contiguous(Stamp(data, from, epoch), from)
    ensures forall i :: 0 <= i < |data| ==> Stamp(data, from, epoch)[i].epoch == epoch
    ensures EndOffset(Stamp(data, from, epoch), from) == from + Records(data)
  {
    StampContiguous(data, from, epoch);
    StampEpochs(data, from, epoch);
  }

  /** A request waits for the end of its records if and only if it has at most 2^32 of them. */
  lemma {:induction false} RequiredIsEnd(first: nat, data: seq<Batch>)
    requires WellFormedData(data) && |data| > 0
    ensures first < RequiredHw(first, data) <= first + Records(data)
    ensures RequiredHw(first, data) == first + Records(data) <==> Records(data) <= TWO_TO_32
  {
    assert data[|data| - 1].WellFormed();
  }

  /** So after a leader append its request waits for the log end if and only if it has at most 2^32 records. */
  lemma {:induction false} RequiredIsLogEnd(r: ReplicaLog, data: seq<Batch>, epoch: int, maxBytes: nat)
    requires WellFormedData(data) && AppendStamped(r, data, epoch, maxBytes).1.None?
    ensures var end := AppendStamped(r, data, epoch, maxBytes).0.End();
            && r.End() < RequiredHw(r.End(), data) <= end == r.End() + Records(data)
            && (RequiredHw(r.End(), data) == end <==> Records(data) <= TWO_TO_32)
  {
    RequiredIsEnd(r.End(), data);
    StampLog(data, r.End(), epoch);
  }

  lemma {:induction false} SnocConcat<T>(a: seq<T>, b: seq<T>)
    requires |b| > 0
    ensures a + b == (a + b[..|b| - 1]) + [b[|b| - 1]]
  {
  }

  /** Appending batches that follow the log end gives a log. */
  lemma {:induction false} ConcatLog(bs: seq<Batch>, data: seq<Batch>)
    requires IsLog(bs) && Contiguous(data, Leo(bs))
    ensures IsLog(bs + data) && Leo(bs + data) == EndOffset(data, Leo(bs))
  {
    if |data| == 0 {
      assert bs + data == bs;
    } else {
      var n := |data| - 1;
      PrefixContiguous(data, Leo(bs), n);
      ConcatLog(bs, data[..n]);
      AppendOneContiguous(bs + data[..n], 0, data[n]);
      SnocConcat(bs, data);
    }
  }

  lemma {:induction false} OffsetsFollowLog(data: seq<Batch>, from: nat)
    requires WellFormedData(data) && OffsetsFollow(data, from)
    ensures Contiguous(data, from)
  {
    if |data| > 0 {
      var n := |data| - 1;
      OffsetsFollowLog(data[..n], from);
      AppendOneContiguous(data[..n], from, data[n]);
      assert data[..n] + [data[n]] == data;
    }
  }

  lemma {:induction false} EpochsFollowNonDecreasing(data: seq<Batch>)
    requires EpochsFollow(data) && (|data| > 0 ==> data[0].epoch >= 0)
    ensures NonDecreasing(data)
  {
    if |data| > 0 {
      EpochsFollowNonDecreasing(data[..|data| - 1]);
    }
  }

  /** A leader append keeps the cache a mirror of the log. */
  lemma {:induction false} AppendStampedCoherent(r: ReplicaLog, data: seq<Batch>, epoch: int, maxBytes: nat)
    requires r.Coherent() && WellFormedData(data) && Latest(r.cache) == Some(epoch)
    requires AppendStamped(r, data, epoch, maxBytes).1.None?
    ensures AppendStamped(r, data, epoch, maxBytes).0.Coherent()
    ensures AppendStamped(r, data, epoch, maxBytes).0.End() == r.End() + Records(data)
  {
    StampLog(data, r.End(), epoch);
    StampedCoherent(r, Stamp(data, r.End(), epoch), epoch);
  }

  lemma {:induction false} StampedCoherent(r: ReplicaLog, s: seq<Batch>, epoch: int)
    requires r.Coherent() && Latest(r.cache) == Some(epoch)
    requires Contiguous(s, r.End()) && forall i :: 0 <= i < |s| ==> s[i].epoch == epoch
    ensures r.(batches := r.batches + s).Coherent()
    ensures Leo(r.batches + s) == EndOffset(s, r.End())
  {
    ConcatLog(r.batches, s);
    LeaderAppendKeepsMirror(r.cache, r.batches, s);
  }

  /** The batches a replica append adds; none if it fails or accepts nothing. */
  function Added(r: ReplicaLog, data: seq<Batch>, fetchEpoch: int): seq<Batch> {
    if AppendReplica(r, data, fetchEpoch).1.Some? then [] else Accepted(data, fetchEpoch)
  }

  /** A replica append extends the log by what it accepts, and keeps the mirror exactly when that fits. */
  lemma {:induction false} AppendReplicaCoherent(r: ReplicaLog, data: seq<Batch>, fetchEpoch: int)
    requires r.Coherent() && WellFormedData(data)
    ensures var r' := AppendReplica(r, data, fetchEpoch).0;
            var added := Added(r, data, fetchEpoch);
            && r'.batches == r.batches + added && IsLog(r'.batches)
            && (r'.Coherent() <==> (|added| > 0 ==> FirstEpochFits(r.cache, r.batches, added[0].epoch)))
  {
    var added := Added(r, data, fetchEpoch);
    if |added| == 0 {
      assert r.batches + added == r.batches;
    } else {
      assert forall i :: 0 <= i < |added| ==> added[i] == data[i];
      OffsetsFollowLog(added, r.End());
      ConcatLog(r.batches, added);
      EpochsFollowNonDecreasing(added);
      ReplicaAppendMirror(r.cache, r.batches, added);
    }
  }
}
