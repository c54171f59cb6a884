/**
 What partitions get done: when each operation is accepted, how far the high watermark gets,
 and that followers which keep fetching catch up with their leader.
 */
module Progress {
  import opened Batches
  import opened EpochCache
  import opened EpochMirror
  import opened Reconciliation
  import opened PartitionModel
  import opened Cluster
  import opened ClusterSafety

  // ----- The high watermark of a leader -----

  /** The log and every other in-sync replica reach `o`. */
  ghost predicate Reached(st: State, o: nat) {
    o <= st.End() && forall i :: 0 <= i < |st.isr| && st.isr[i].broker != st.local ==> o <= st.isr[i].leo
  }

  /** The new watermark is the largest offset that all in-sync replicas reach, unless the old one is larger. */
  ghost predicate IsLargest(before: State, after: State) {
    && before.hw <= after.hw
    && (forall o: nat :: Reached(after, o) ==> o <= after.hw)
    && (after.hw == before.hw || Reached(after, after.hw))
  }

  lemma {:induction false} MinReached(isr: seq<IsrEntry>, local: int, leo: nat, o: nat)
    requires o <= leo && forall i :: 0 <= i < |isr| && isr[i].broker != local ==> o <= isr[i].leo
    ensures o <= IsrMin(isr, local, leo)
  {
    if |isr| > 0 {
      assert forall i :: 1 <= i < |isr| ==> isr[i] == isr[1..][i - 1];
      MinReached(isr[1..], local, leo, o);
    }
  }

  lemma {:induction false} AdvanceIsLargest(st: State, before: State)
    requires st.isLeader && |st.isr| > 0 && before.hw == st.hw
    ensures IsLargest(before, AdvanceHw(st)) && AdvanceHw(st) == st.(hw := AdvanceHw(st).hw)
  {
    var st' := AdvanceHw(st);
    forall o: nat | Reached(st', o) ensures o <= st'.hw { MinReached(st.isr, st.local, st.End(), o); }
  }

  /** A leader takes batches that are not too large, as long as offsets last; then the watermark is up to date. */
  lemma {:induction false} ProduceOutcome(st: State, data: seq<Batch>, maxBytes: nat)
    ensures var r := AppendRaw(st, data, maxBytes);
            && (r.error.None? <==>
                && st.isLeader && !st.closed && |data| > 0 && st.End() + Records(data) <= MAX_OFFSET
                && forall i :: 0 <= i < |data| ==> data[i].size <= maxBytes)
            && (r.error.Some? ==> r.state == st)
            && (r.error.None? ==>
                  && r.state == st.(log := r.state.log, hw := r.state.hw) && r.state.log.cache == st.log.cache
                  && r.state.log.batches == st.log.batches + Stamp(data, st.End(), st.leaderEpoch)
                  && if |st.isr| > 0 then IsLargest(st, r.state) else r.state.hw == st.hw)
  {
    if AppendRaw(st, data, maxBytes).error.None? && |st.isr| > 0 {
      AdvanceIsLargest(st.(log := AppendStamped(st.log, data, st.leaderEpoch, maxBytes).0), st);
    }
  }

  /** Which produce requests are refused, and why. */
  lemma {:induction false} ProduceErrors(st: State, data: seq<Batch>, maxBytes: nat)
    ensures var e := AppendRaw(st, data, maxBytes).error;
            && (e == Some(NotLeaderOrFollower) <==> !st.isLeader)
            && (e == Some(PartitionClosed) <==> st.isLeader && st.closed)
            && (e == Some(MessageTooLarge) <==>
                st.isLeader && !st.closed && exists i :: 0 <= i < |data| && data[i].size > maxBytes)
  {
  }

  lemma {:induction false} TailUpdate<T>(s: seq<T>, k: nat, x: T)
    requires |s| > 0
    ensures [s[0]] + s[1..] == s && forall j :: 1 <= j < |s| ==> s[j] == s[1..][j - 1]
    ensures k < |s[1..]| ==> [s[0]] + s[1..][k := x] == s[k + 1 := x]
  {
  }

  /** Only the first entry of a broker takes the offset it fetched from. */
  lemma {:induction false} RecordLeoIs(isr: seq<IsrEntry>, id: int, leo: nat) returns (i: nat)
    ensures i <= |isr| && (forall k :: 0 <= k < i ==> isr[k].broker != id)
    ensures if i < |isr| then isr[i].broker == id && RecordLeo(isr, id, leo) == isr[i := IsrEntry(id, leo)]
            else RecordLeo(isr, id, leo) == isr
  {
    if |isr| == 0 || isr[0].broker == id {
      i := 0;
    } else {
      var k := RecordLeoIs(isr[1..], id, leo);
      i := k + 1;
      TailUpdate(isr, k, IsrEntry(id, leo));
    }
  }

  /** The last entry of a broker is what an ISR update carries over; a broker without one starts at 0. */
  lemma {:induction false} RecordedLeoIs(isr: seq<IsrEntry>, id: int) returns (i: nat)
    ensures i <= |isr| && (forall k :: i < k < |isr| ==> isr[k].broker != id)
    ensures if i < |isr| then isr[i].broker == id && RecordedLeo(isr, id) == isr[i].leo
            else (forall k :: 0 <= k < |isr| ==> isr[k].broker != id) && RecordedLeo(isr, id) == 0
  {
    var n := |isr| - 1;
    if |isr| == 0 || isr[n].broker == id {
      i := if |isr| == 0 then 0 else n;
    } else {
      i := RecordedLeoIs(isr[..n], id);
      if i == n { i := |isr|; }
    }
  }

  ghost predicate DistinctMembers(isr: seq<IsrEntry>) {
    forall i, j :: 0 <= i < j < |isr| ==> isr[i].broker != isr[j].broker
  }

  /** A fetch within the log and of the leader's epoch is recorded, and the watermark is up to date. */
  lemma {:induction false} FetchOutcome(st: State, epoch: int, id: int, offset: nat)
    requires DistinctMembers(st.isr)
    ensures var r := FollowerFetch(st, epoch, id, offset);
            && (r.error.None? <==>
                st.isLeader && !st.closed && offset <= st.End() && (epoch < 0 || epoch == st.leaderEpoch))
            && (r.error.Some? ==> r.state == st)
            && (r.error.None? ==>
                  && r.state == st.(isr := r.state.isr, hw := r.state.hw) && |r.state.isr| == |st.isr|
                  && (forall i :: 0 <= i < |st.isr| ==>
                        r.state.isr[i] == if st.isr[i].broker == id then IsrEntry(id, offset) else st.isr[i])
                  && if |st.isr| > 0 then IsLargest(st, r.state) else r.state.hw == st.hw)
  {
    if FollowerFetch(st, epoch, id, offset).error.None? {
      var i := RecordLeoIs(st.isr, id, offset);
      if |st.isr| > 0 { AdvanceIsLargest(st.(isr := RecordLeo(st.isr, id, offset)), st); }
    }
  }

  lemma {:induction false} FetchErrors(st: State, epoch: int, id: int, offset: nat)
    ensures var e := FollowerFetch(st, epoch, id, offset).error;
            && (e == Some(NotLeaderOrFollower) <==> !st.isLeader)
            && (e == Some(FencedLeaderEpoch) <==> st.isLeader && 0 <= epoch < st.leaderEpoch)
            && (e == Some(UnknownLeaderEpoch) <==> st.isLeader && epoch >= 0 && epoch > st.leaderEpoch)
            && (e == Some(OffsetOutOfRange) ==> offset > st.End())
  {
  }

  /** An ISR update of the same leadership keeps the recorded ends of those who stay. */
  lemma {:induction false} IsrOutcome(st: State, epoch: int, ids: seq<int>)
    requires DistinctMembers(st.isr)
    ensures var r := UpdateLeaderIsr(st, epoch, ids);
            && (r.error.None? <==> st.isLeader && st.leaderEpoch == epoch && st.leaderId == st.local)
            && (r.error.Some? ==> r.error == Some(NotLeaderOrFollower) && r.state == st)
            && (r.error.None? ==>
                  && r.state == st.(isr := r.state.isr, hw := r.state.hw) && |r.state.isr| == |ids|
                  && (forall i :: 0 <= i < |ids| ==> r.state.isr[i].broker == ids[i])
                  && (forall i, j :: 0 <= i < |ids| && 0 <= j < |st.isr| && st.isr[j].broker == ids[i] ==>
                                       r.state.isr[i].leo == st.isr[j].leo)
                  && (forall i :: 0 <= i < |ids| && (forall j :: 0 <= j < |st.isr| ==> st.isr[j].broker != ids[i]) ==>
                                    r.state.isr[i].leo == 0)
                  && if |ids| > 0 then IsLargest(st, r.state) else r.state.hw == st.hw)
  {
    var r := UpdateLeaderIsr(st, epoch, ids);
    if r.error.None? {
      if |ids| > 0 { AdvanceIsLargest(st.(isr := NewIsr(st.isr, ids)), st); }
      forall i | 0 <= i < |ids|
        ensures forall j :: 0 <= j < |st.isr| && st.isr[j].broker == ids[i] ==> r.state.isr[i].leo == st.isr[j].leo
        ensures (forall j :: 0 <= j < |st.isr| ==> st.isr[j].broker != ids[i]) ==> r.state.isr[i].leo == 0
      {
        var k := RecordedLeoIs(st.isr, ids[i]);
      }
    }
  }

  /** A leader alone in its ISR commits what it writes at once. */
  lemma {:induction false} AloneCommits(st: State, data: seq<Batch>, maxBytes: nat)
    requires |st.isr| > 0 && forall i :: 0 <= i < |st.isr| ==> st.isr[i].broker == st.local
    requires AppendRaw(st, data, maxBytes).error.None?
    ensures AppendRaw(st, data, maxBytes).state.hw >= AppendRaw(st, data, maxBytes).state.End()
  {
    ProduceOutcome(st, data, maxBytes);
    var st' := AppendRaw(st, data, maxBytes).state;
    assert Reached(st', st'.End());
  }

  // ----- When everybody has fetched -----

  /** The leader after each of `ids` has fetched from its log end. */
  function FetchAll(st: State, ids: seq<int>): State {
    if |ids| == 0 then st
    else
      var n := |ids| - 1;
      FollowerFetch(FetchAll(st, ids[..n]), st.leaderEpoch, ids[n], st.End()).state
  }

  /** Who has fetched is recorded at the log end, everybody else as before. */
  ghost predicate Fetched(st: State, ids: seq<int>, st': State) {
    && st' == st.(isr := st'.isr, hw := st'.hw) && |st'.isr| == |st.isr|
    && (forall i :: 0 <= i < |st.isr| ==>
          st'.isr[i] == if st.isr[i].broker in ids then IsrEntry(st.isr[i].broker, st.End()) else st.isr[i])
    && (|ids| > 0 ==> IsLargest(st, st'))
  }

  lemma {:induction false} FetchAllIs(st: State, ids: seq<int>)
    requires st.isLeader && !st.closed && |st.isr| > 0 && DistinctMembers(st.isr)
    ensures Fetched(st, ids, FetchAll(st, ids))
  {
    if |ids| > 0 {
      var n := |ids| - 1;
      FetchAllIs(st, ids[..n]);
      FetchOutcome(FetchAll(st, ids[..n]), st.leaderEpoch, ids[n], st.End());
      assert ids == ids[..n] + [ids[n]];
    }
  }

  /**
   Once every other member of the ISR has fetched from the log end, in any order and any number
   of times, the high watermark is there: every request that was stored before then is woken.
   */
  lemma {:induction false} AllFetchedCommits(st: State, ids: seq<int>)
    requires st.isLeader && !st.closed && |st.isr| > 0 && DistinctMembers(st.isr) && |ids| > 0
    requires forall i :: 0 <= i < |st.isr| && st.isr[i].broker != st.local ==> st.isr[i].broker in ids
    ensures FetchAll(st, ids).hw >= st.End() && FetchAll(st, ids).log == st.log
  {
    FetchAllIs(st, ids);
    assert Reached(FetchAll(st, ids), st.End());
  }

  /** So a request that waits for all acknowledgements gets them, whatever it has stored. */
  lemma {:induction false} ProducedIsWoken(st: State, data: seq<Batch>, maxBytes: nat, ids: seq<int>)
    requires AppendRaw(st, data, maxBytes).error.None? && WellFormedData(data)
    requires |st.isr| > 0 && DistinctMembers(st.isr) && |ids| > 0
    requires forall i :: 0 <= i < |st.isr| && st.isr[i].broker != st.local ==> st.isr[i].broker in ids
    ensures RequiredHw(st.End(), data) <= FetchAll(AppendRaw(st, data, maxBytes).state, ids).hw
  {
    ProduceOutcome(st, data, maxBytes);
    RequiredIsLogEnd(st.log, data, st.leaderEpoch, maxBytes);
    AllFetchedCommits(AppendRaw(st, data, maxBytes).state, ids);
  }

  // ----- Replica appends -----

  lemma {:induction false} InOrderFollows(data: seq<Batch>, from: nat)
    requires Contiguous(data, from) && NonDecreasing(data)
    ensures OffsetsFollow(data, from) && EpochsFollow(data) && (|data| > 0 ==> data[0].epoch >= 0)
  {
    if |data| > 0 {
      var n := |data| - 1;
      PrefixContiguous(data, from, n);
      InOrderFollows(data[..n], from);
    }
  }

  /**
   Of the fetched batches those up to the first of a later epoch are taken. They are appended if
   and only if they continue the log in order; otherwise nothing changes.
   */
  lemma {:induction false} ReplicaOutcome(r: ReplicaLog, data: seq<Batch>, fetchEpoch: int)
    requires WellFormedData(data)
    ensures var taken, (r', e) := Accepted(data, fetchEpoch), AppendReplica(r, data, fetchEpoch);
            && (e.None? <==> |data| > 0 && Contiguous(taken, r.End()) && NonDecreasing(taken))
            && (e.Some? ==> r' == r)
            && (e.None? ==> r'.batches == r.batches + taken)
  {
    var taken := Accepted(data, fetchEpoch);
    assert forall i :: 0 <= i < |taken| ==> taken[i] == data[i];
    if Contiguous(taken, r.End()) && NonDecreasing(taken) { InOrderFollows(taken, r.End()); }
    if OffsetsFollow(taken, r.End()) { OffsetsFollowLog(taken, r.End()); }
    if EpochsFollow(taken) && (|taken| > 0 ==> taken[0].epoch >= 0) { EpochsFollowNonDecreasing(taken); }
    assert |taken| == 0 ==> r.batches + taken == r.batches;
  }

  /** The reported fault is that of the first batch that is out of order. */
  lemma {:induction false} FirstFaultIs(data: seq<Batch>, from: nat) returns (n: nat)
    requires !(OffsetsFollow(data, from) && EpochsFollow(data))
    ensures n < |data| && OffsetsFollow(data[..n], from) && EpochsFollow(data[..n])
    ensures if data[n].base != EndOffset(data[..n], from) then FirstFault(data, from) == UnexpectedAppendOffset
            else n > 0 && data[n].epoch < data[n - 1].epoch && FirstFault(data, from) == CorruptMessage
  {
    n := |data| - 1;
    if !(OffsetsFollow(data[..n], from) && EpochsFollow(data[..n])) {
      var k := FirstFaultIs(data[..n], from);
      assert data[..n][..k] == data[..k];
      n := k;
    }
  }

  /** A follower takes what the leader of its epoch sends, and follows its watermark as far as its log goes. */
  lemma {:induction false} ReplicateOutcome(st: State, data: seq<Batch>, epoch: int, leaderHw: nat)
    requires WellFormedData(data)
    ensures var r, taken := AppendFromLeader(st, data, epoch, leaderHw), Accepted(data, epoch);
            && (r.error.None? <==>
                && !st.closed && !st.isLeader && st.leaderId >= 0 && st.leaderId != st.local && epoch == st.leaderEpoch
                && Contiguous(taken, st.End()) && NonDecreasing(taken))
            && (r.error.Some? ==> r.state == st)
            && (r.error.None? ==>
                  && r.state == st.(log := r.state.log, hw := r.state.hw)
                  && r.state.log.batches == st.log.batches + taken
                  && Min(leaderHw, r.state.End()) <= r.state.hw
                  && (r.state.hw == st.hw || st.hw < r.state.hw <= Min(leaderHw, r.state.End())))
  {
    ReplicaOutcome(st.log, data, epoch);
    assert st.log.batches + [] == st.log.batches;
  }

  lemma {:induction false} ReplicateErrors(st: State, data: seq<Batch>, epoch: int, leaderHw: nat)
    ensures var e := AppendFromLeader(st, data, epoch, leaderHw).error;
            && (e == Some(PartitionClosed) <==> st.closed)
            && (e == Some(NotLeaderOrFollower) <==>
                !st.closed && (st.isLeader || st.leaderId < 0 || st.leaderId == st.local))
            && (e == Some(FencedLeaderEpoch) <==>
                !st.closed && !st.isLeader && 0 <= st.leaderId != st.local && epoch < st.leaderEpoch)
            && (e == Some(UnknownLeaderEpoch) <==>
                !st.closed && !st.isLeader && 0 <= st.leaderId != st.local && epoch > st.leaderEpoch)
  {
    if |data| > 0 && AppendReplica(st.log, data, epoch).1.Some? && |Accepted(data, epoch)| > 0 {
      var a := Accepted(data, epoch);
      if !(OffsetsFollow(a, st.End()) && EpochsFollow(a)) { var n := FirstFaultIs(a, st.End()); }
    }
  }

  // ----- Roles and truncation -----

  /** A broker takes over unless it knows a later epoch; it then leads the latest one, over the same batches. */
  lemma {:induction false} LeadOutcome(st: State, epoch: int, ids: seq<int>, initialHw: nat)
    requires Increasing(st.log.cache)
    ensures var r := MakeLeader(st, epoch, ids, initialHw);
            && (r.error.None? <==>
                epoch >= 0 && (|st.log.cache| > 0 ==> epoch >= st.log.cache[|st.log.cache| - 1].epoch))
            && (r.error == Some(StaleLeaderEpoch) ==> r.state == st)
            && (r.error == Some(InvalidLeaderEpoch) ==> !r.state.isLeader && r.state.log == st.log)
            && (r.error.None? ==>
                  && r.state.isLeader && r.state.leaderId == r.state.local == st.local && r.state.leaderEpoch == epoch
                  && r.state.hw == initialHw && r.state.closed == st.closed
                  && r.state.log.batches == st.log.batches && Latest(r.state.log.cache) == Some(epoch)
                  && |r.state.isr| == |ids|
                  && forall i :: 0 <= i < |ids| ==> r.state.isr[i] == IsrEntry(ids[i], 0))
  {
    if epoch >= 0 { AssignedIncreasing(st.log.cache, epoch, st.End()); }
    if |st.log.cache| > 0 { IncreasingAt(st.log.cache, |st.log.cache| - 1, |st.log.cache| - 1); }
  }

  /** A follower is cut at a batch boundary and nowhere else, and its watermark with it. */
  lemma {:induction false} CutOutcome(st: State, o: nat)
    requires st.log.Coherent()
    ensures var r := TruncateTo(st, o);
            && (r.error.None? <==> !st.isLeader && IsBoundary(st.log.batches, o))
            && (st.isLeader ==> r.error == Some(NotLeaderOrFollower) && r.state == st)
            && (r.error == Some(InvalidTruncation) ==> r.state == st.(hw := Min(st.hw, st.End())))
            && (r.error.None? ==>
                  && r.state == st.(log := r.state.log, hw := Min(st.hw, o))
                  && r.state.log.batches == UpTo(st.log.batches, o) && r.state.End() == o)
  {
    TruncateSucceeds(st.log, o);
    if Truncate(st.log, o).Some? { TruncateIs(st.log, o); }
  }

  // ----- Catching up -----

  /** A follower of a serving leader that has reconciled with it, and lacks batches. */
  ghost predicate Lags(c: Cluster, id: int, leader: int) {
    && id in c.nodes && leader in c.nodes && id != leader
    && var n, l := c.nodes[id], c.nodes[leader];
    && n.phase == Fetching && n.known == l.known && l.st.isLeader
    && !n.st.isLeader && 0 <= n.st.leaderId != n.st.local && !n.st.closed && !l.st.closed
    && |n.st.log.batches| < |l.st.log.batches|
  }

  function Asks(c: Cluster, id: int): FetchRequest
    requires id in c.nodes
  {
    FetchRequest(id, c.nodes[id].known, c.nodes[id].st.End())
  }

  lemma {:induction false} NextPiece(all: seq<Batch>, bs: seq<Batch>, count: nat)
    requires IsLog(all) && bs <= all
    ensures CountUpTo(all, Leo(bs)) == |bs| && Leo(bs) <= Leo(all)
    ensures all[|bs|..][..Min(count, |all| - |bs|)] == all[|bs|..Min(|bs| + count, |all|)]
  {
    assert all[..|bs|] == bs;
    PrefixEnd(all, bs);
    CountUpToBoundary(all, |bs|);
    SliceOfSlice(all, |bs|, Min(count, |all| - |bs|));
  }

  /** A serving leader answers with the batches after those the follower has. */
  lemma {:induction false} SendsNext(c: Cluster, leader: int, q: FetchRequest, bs: seq<Batch>, count: nat)
    requires leader in c.nodes && c.nodes[leader].st.isLeader && !c.nodes[leader].st.closed && q in c.requests
    requires q.epoch == c.nodes[leader].st.leaderEpoch && q.offset == Leo(bs) && q.follower != leader
    requires IsLog(c.nodes[leader].st.log.batches) && bs <= c.nodes[leader].st.log.batches
    ensures Enabled(c, ServeFetch(leader, q, count))
    ensures var all, c' := c.nodes[leader].st.log.batches, Next(c, ServeFetch(leader, q, count));
            && leader in c'.nodes && c'.nodes == c.nodes[leader := c'.nodes[leader]]
            && FetchResponse(q.follower, q.epoch, q.offset, all[|bs|..Min(|bs| + count, |all|)], c'.nodes[leader].st.hw)
               in c'.responses
  {
    var l := c.nodes[leader].st;
    NextPiece(l.log.batches, bs, count);
    var st := UpdateFollowerLeo(l, q.follower, q.offset);
    assert st.log == l.log;
  }

  lemma {:induction false} PieceContiguous(all: seq<Batch>, i: nat, k: nat)
    requires IsLog(all) && i <= k <= |all|
    ensures Contiguous(all[i..k], Leo(all[..i])) && EndOffset(all[i..k], Leo(all[..i])) == Leo(all[..k])
    decreases k - i
  {
    if i < k {
      PieceContiguous(all, i, k - 1);
      assert all[i..k] == all[i..k - 1] + [all[k - 1]] && all[..k][k - 1] == all[k - 1];
      AppendOneContiguous(all[i..k - 1], Leo(all[..i]), all[k - 1]);
    }
  }

  lemma {:induction false} PieceNonDecreasing(all: seq<Batch>, i: nat, k: nat)
    requires NonDecreasing(all) && i <= k <= |all|
    ensures NonDecreasing(all[i..k])
    decreases k - i
  {
    if i < k {
      PieceNonDecreasing(all, i, k - 1);
      assert all[i..k][..k - 1 - i] == all[i..k - 1];
      NonDecreasingAt(all, if k - 1 > i then k - 2 else i, k - 1);
    }
  }

  lemma {:induction false} AllAccepted(data: seq<Batch>, epoch: int)
    requires EpochsAtMost(data, epoch)
    ensures Accepted(data, epoch) == data
  {
    assert Accepted(data, epoch) <= data;
  }

  /** A follower that receives the batches after its own has them. */
  lemma {:induction false} TakesNext(c: Cluster, id: int, s: FetchResponse, all: seq<Batch>, k: nat)
    requires id in c.nodes && s in c.responses && s.follower == id
    requires var n := c.nodes[id];
             && n.phase == Fetching && n.known == s.epoch == n.st.leaderEpoch && s.offset == n.st.End()
             && !n.st.isLeader && 0 <= n.st.leaderId != n.st.local && !n.st.closed
             && n.st.log.batches <= all && |n.st.log.batches| <= k <= |all| && s.data == all[|n.st.log.batches|..k]
    requires IsLog(all) && NonDecreasing(all) && EpochsAtMost(all, s.epoch)
    ensures Enabled(c, Deliver(id, s))
    ensures var n' := Next(c, Deliver(id, s)).nodes[id].st;
            n'.log.batches == all[..k] && Min(s.hw, n'.End()) <= n'.hw
  {
    var bs := c.nodes[id].st.log.batches;
    assert all[..|bs|] == bs && bs + all[|bs|..k] == all[..k];
    PieceContiguous(all, |bs|, k);
    PieceNonDecreasing(all, |bs|, k);
    AllAccepted(s.data, s.epoch);
    ReplicateOutcome(c.nodes[id].st, s.data, s.epoch, s.hw);
  }

  /** The log of a leader is in order and has no later epoch than its own. */
  lemma {:induction false} LeaderInOrder(c: Cluster, leader: int)
    requires Safe(c) && leader in c.nodes && c.nodes[leader].st.isLeader
    ensures var l := c.nodes[leader];
            && IsLog(l.st.log.batches) && NonDecreasing(l.st.log.batches) && EpochsAtMost(l.st.log.batches, l.known)
            && l.st.leaderEpoch == l.known >= 0
  {
    var l := c.nodes[leader];
    assert NodeOk(leader, l, c.epochs, c.requests);
    assert LeadershipOk(l.known, c.epochs[l.known], Hist(c.epochs));
    MirrorRuns(l.st.log.cache, l.st.log.batches);
    IncreasingRunsNonDecreasing(l.st.log.batches);
  }

  /**
   One exchange with its leader, a fetch, the answer to it and its delivery, gives a follower
   the next `count` batches: it is never refused and gets nothing else.
   */
  lemma {:induction false} FollowerCatchesUp(c: Cluster, id: int, leader: int, count: nat)
    returns (c1: Cluster, c2: Cluster, s: FetchResponse, c3: Cluster)
    requires Safe(c) && Lags(c, id, leader)
    ensures Enabled(c, SendFetch(id)) && c1 == Next(c, SendFetch(id))
    ensures Enabled(c1, ServeFetch(leader, Asks(c, id), count))
            && c2 == Next(c1, ServeFetch(leader, Asks(c, id), count))
    ensures Enabled(c2, Deliver(id, s)) && c3 == Next(c2, Deliver(id, s))
    ensures id in c3.nodes && leader in c2.nodes && s.hw == c2.nodes[leader].st.hw
    ensures var all, n' := c.nodes[leader].st.log.batches, c3.nodes[id].st;
            && n'.log.batches == all[..Min(|c.nodes[id].st.log.batches| + count, |all|)]
            && Min(s.hw, n'.End()) <= n'.hw
  {
    var n, l := c.nodes[id], c.nodes[leader];
    var bs, all := n.st.log.batches, l.st.log.batches;
    assert NodeOk(id, n, c.epochs, c.requests);
    FetchingIsPrefix(c, id, leader);
    LeaderInOrder(c, leader);
    var k := Min(|bs| + count, |all|);
    c1 := Next(c, SendFetch(id));
    SendsNext(c1, leader, Asks(c, id), bs, count);
    c2 := Next(c1, ServeFetch(leader, Asks(c, id), count));
    s := FetchResponse(id, n.known, n.st.End(), all[|bs|..k], c2.nodes[leader].st.hw);
    TakesNext(c2, id, s, all, k);
    c3 := Next(c2, Deliver(id, s));
  }
}
