/**
 Every clean run of the cluster keeps its replicas consistent: caches mirror logs, logs share
 the history of each epoch, fetching followers are prefixes of their leader, and what a
 leader's high watermark has passed stays on the ISR members it counted on.
 */
module ClusterSafety {
  import opened Batches
  import opened EpochCache
  import opened EpochMirror
  import opened Reconciliation
  import opened PartitionModel
  import opened Cluster
  import PartitionRuns
  import ReconciliationRuns

  // ----- Growth of histories -----

  ghost predicate HistGrows(h: Histories, h': Histories) {
    forall e :: e in h ==> e in h' && h[e] <= h'[e]
  }

  lemma {:induction false} GroundedGrows(r: ReplicaLog, h: Histories, h': Histories)
    requires Grounded(r, h) && HistGrows(h, h')
    ensures Grounded(r, h')
  {
    forall j | 0 <= j < |r.cache| ensures EntryGrounded(r, j, h') {
      assert EntryGrounded(r, j, h);
    }
  }

  /** Only leaderships of `id` change, and they only grow. */
  ghost predicate Extends(epochs: map<int, Leadership>, epochs': map<int, Leadership>, id: int) {
    && (forall e :: e in epochs ==> e in epochs' && (epochs'[e] == epochs[e] || Grown(epochs[e], epochs'[e], id)))
    && (forall e :: e in epochs' && e !in epochs ==> epochs'[e].leader == id)
  }

  ghost predicate Grown(l: Leadership, l': Leadership, id: int) {
    l.leader == l'.leader == id && l.base == l'.base && l.log.batches <= l'.log.batches
  }

  lemma {:induction false} ExtendsHist(epochs: map<int, Leadership>, epochs': map<int, Leadership>, id: int)
    requires Extends(epochs, epochs', id)
    ensures HistGrows(Hist(epochs), Hist(epochs'))
  {
  }

  lemma {:induction false} OtherNodeOk(x: int, n: Node, id: int, epochs: map<int, Leadership>,
                                       epochs': map<int, Leadership>, requests: set<FetchRequest>,
                                       requests': set<FetchRequest>)
    requires NodeOk(x, n, epochs, requests) && x != id
    requires Extends(epochs, epochs', id) && requests <= requests'
    ensures NodeOk(x, n, epochs', requests')
  {
    ExtendsHist(epochs, epochs', id);
    GroundedGrows(n.st.log, Hist(epochs), Hist(epochs'));
  }

  lemma {:induction false} OtherLeadershipOk(e: int, epochs: map<int, Leadership>, epochs': map<int, Leadership>,
                                             id: int)
    requires e in epochs && LeadershipOk(e, epochs[e], Hist(epochs)) && Extends(epochs, epochs', id)
    ensures LeadershipOk(e, epochs[e], Hist(epochs'))
  {
    ExtendsHist(epochs, epochs', id);
    GroundedGrows(epochs[e].log, Hist(epochs), Hist(epochs'));
  }

  lemma {:induction false} OldResponseOk(s: FetchResponse, epochs: map<int, Leadership>,
                                         epochs': map<int, Leadership>, id: int,
                                         requests: set<FetchRequest>, requests': set<FetchRequest>)
    requires ResponseOk(s, epochs, requests) && Extends(epochs, epochs', id) && requests <= requests'
    ensures ResponseOk(s, epochs', requests')
  {
    var b, b' := epochs[s.epoch].log.batches, epochs'[s.epoch].log.batches;
    var i, j :| 0 <= i <= j <= |b| && s.data == b[i..j];
    assert b'[i..j] == b[i..j];
  }

  /** A step of broker `id`: what has to be shown about it, everything else being framed. */
  ghost predicate StepOk(c: Cluster, c': Cluster, id: int) {
    && id in c.nodes && id in c'.nodes
    && c'.nodes == c.nodes[id := c'.nodes[id]]
    && Extends(c.epochs, c'.epochs, id)
    && c.requests <= c'.requests
    && NodeOk(id, c'.nodes[id], c'.epochs, c'.requests)
    && (forall e :: e in c'.epochs && (e in c.epochs ==> c'.epochs[e] != c.epochs[e]) ==>
                      LeadershipOk(e, c'.epochs[e], Hist(c'.epochs)))
    && (forall r :: r in c'.requests && r.follower == id ==> RequestOk(r, c'.nodes[id], c'.epochs))
    && (forall r :: r in c'.requests && r !in c.requests ==> r.follower == id)
    && (forall s :: s in c'.responses && s !in c.responses ==> ResponseOk(s, c'.epochs, c'.requests))
    && (forall a :: a in c'.acks && a !in c.acks ==> AckOk(a, c'.requests))
  }

  lemma {:induction false} AssembleNodes(c: Cluster, c': Cluster, id: int)
    requires Safe(c) && StepOk(c, c', id)
    ensures forall x :: x in c'.nodes ==> NodeOk(x, c'.nodes[x], c'.epochs, c'.requests)
  {
    forall x | x in c'.nodes ensures NodeOk(x, c'.nodes[x], c'.epochs, c'.requests) {
      if x != id {
        OtherNodeOk(x, c.nodes[x], id, c.epochs, c'.epochs, c.requests, c'.requests);
      }
    }
  }

  lemma {:induction false} AssembleEpochs(c: Cluster, c': Cluster, id: int)
    requires Safe(c) && StepOk(c, c', id)
    ensures forall e :: e in c'.epochs ==> LeadershipOk(e, c'.epochs[e], Hist(c'.epochs))
  {
    forall e | e in c'.epochs ensures LeadershipOk(e, c'.epochs[e], Hist(c'.epochs)) {
      if e in c.epochs && c'.epochs[e] == c.epochs[e] {
        OtherLeadershipOk(e, c.epochs, c'.epochs, id);
      }
    }
  }

  lemma {:induction false} AssembleMessages(c: Cluster, c': Cluster, id: int)
    requires Safe(c) && StepOk(c, c', id)
    ensures forall r :: r in c'.requests ==> r.follower in c'.nodes && RequestOk(r, c'.nodes[r.follower], c'.epochs)
    ensures forall s :: s in c'.responses ==> ResponseOk(s, c'.epochs, c'.requests)
  {
    forall r | r in c'.requests
      ensures r.follower in c'.nodes && RequestOk(r, c'.nodes[r.follower], c'.epochs)
    {
      if r.follower != id {
        assert r in c.requests;
        assert RequestOk(r, c.nodes[r.follower], c.epochs);
      }
    }
    forall s | s in c'.responses ensures ResponseOk(s, c'.epochs, c'.requests) {
      if s in c.responses { OldResponseOk(s, c.epochs, c'.epochs, id, c.requests, c'.requests); }
    }
  }

  lemma {:induction false} AssembleAcks(c: Cluster, c': Cluster, id: int)
    requires Safe(c) && StepOk(c, c', id)
    ensures forall a :: a in c'.acks ==> AckOk(a, c'.requests)
  {
    forall a | a in c'.acks ensures AckOk(a, c'.requests) {
      if a in c.acks {
        var r :| r in c.requests && r.follower == a.member && r.epoch == a.epoch && r.offset >= a.hw;
        assert r in c'.requests;
      }
    }
  }

  lemma {:induction false} Assemble(c: Cluster, c': Cluster, id: int)
    requires Safe(c) && StepOk(c, c', id)
    ensures Safe(c')
  {
    AssembleNodes(c, c', id);
    AssembleEpochs(c, c', id);
    AssembleMessages(c, c', id);
    AssembleAcks(c, c', id);
  }

  /** A step that only changes broker `id` itself. */
  lemma {:induction false} NodeStep(c: Cluster, id: int, n: Node)
    requires Safe(c) && id in c.nodes
    requires NodeOk(id, n, c.epochs, c.requests)
    requires forall r :: r in c.requests && r.follower == id ==> RequestOk(r, n, c.epochs)
    ensures StepOk(c, c.(nodes := c.nodes[id := n]), id)
  {
  }

  lemma {:induction false} SliceOfSlice<T>(s: seq<T>, i: nat, m: nat)
    requires i + m <= |s|
    ensures s[i..][..m] == s[i..i + m]
  {
  }

  lemma {:induction false} PrefixOfSlice<T>(s: seq<T>, i: nat, j: nat, p: seq<T>)
    requires i <= j <= |s| && p <= s[i..j]
    ensures i + |p| <= |s| && p == s[i..i + |p|]
  {
  }

  // ----- Role changes and bookkeeping -----

  lemma {:induction false} FollowOk(c: Cluster, a: Action)
    requires Safe(c) && a.Follow? && Enabled(c, a)
    ensures StepOk(c, Next(c, a), a.id)
  {
    var n, n' := c.nodes[a.id], Next(c, a).nodes[a.id];
    assert NodeOk(a.id, n, c.epochs, c.requests);
    forall r | r in c.requests && r.follower == a.id ensures RequestOk(r, n', c.epochs) {
      assert RequestOk(r, n, c.epochs);
    }
  }

  lemma {:induction false} ResetOk(c: Cluster, a: Action)
    requires Safe(c) && (a.Unassign? || a.Forget?) && Enabled(c, a)
    ensures StepOk(c, Next(c, a), a.id)
  {
    var n, n' := c.nodes[a.id], Next(c, a).nodes[a.id];
    assert NodeOk(a.id, n, c.epochs, c.requests);
    forall r | r in c.requests && r.follower == a.id ensures RequestOk(r, n', c.epochs) {
      assert RequestOk(r, n, c.epochs);
    }
  }

  lemma {:induction false} AskOk(c: Cluster, a: Action)
    requires Safe(c) && a.Ask? && Enabled(c, a)
    ensures StepOk(c, Next(c, a), a.id)
  {
    var n, n' := c.nodes[a.id], Next(c, a).nodes[a.id];
    assert NodeOk(a.id, n, c.epochs, c.requests);
    if |n.st.log.cache| == 0 {
      MirrorFirst(n.st.log.cache, n.st.log.batches);
    } else {
      ReconciliationRuns.EpochsAtMostLatest(n.st.log);
      if n.st.log.cache[|n.st.log.cache| - 1].epoch == n.known { CurrentIsWritten(c, a.id); }
    }
    forall r | r in c.requests && r.follower == a.id ensures RequestOk(r, n', c.epochs) {
      assert RequestOk(r, n, c.epochs);
    }
  }

  /** A follower that has batches of its current epoch has them from a leader that wrote them. */
  lemma {:induction false} CurrentIsWritten(c: Cluster, id: int)
    requires Safe(c) && id in c.nodes && !Leads(id, c.nodes[id].known, c.epochs) && |c.nodes[id].st.log.cache| > 0
    requires Latest(c.nodes[id].st.log.cache) == Some(c.nodes[id].known)
    ensures c.nodes[id].known in c.epochs
    ensures c.epochs[c.nodes[id].known].base < |c.epochs[c.nodes[id].known].log.batches|
  {
    var n := c.nodes[id];
    assert NodeOk(id, n, c.epochs, c.requests);
    var i := |n.st.log.batches| - 1;
    BatchGrounded(n.st.log, i, Hist(c.epochs));
    assert LeadershipOk(n.known, c.epochs[n.known], Hist(c.epochs));
    assert n.st.log.batches[..i + 1][i] == n.st.log.batches[i];
  }

  lemma {:induction false} SendFetchOk(c: Cluster, a: Action)
    requires Safe(c) && a.SendFetch? && Enabled(c, a)
    ensures StepOk(c, Next(c, a), a.id)
  {
    var n := c.nodes[a.id];
    var c' := Next(c, a);
    assert NodeOk(a.id, n, c.epochs, c.requests);
    assert c'.nodes == c.nodes[a.id := n];
    forall r | r in c'.requests && r.follower == a.id ensures RequestOk(r, n, c.epochs) {
      if r in c.requests { assert RequestOk(r, n, c.epochs); }
    }
  }

  // ----- Reconciliation -----

  /** A leader's log at any moment of its epoch is coherent and grounded. */
  lemma {:induction false} SnapshotOk(e: int, l: Leadership, k: nat, hist: Histories)
    requires LeadershipOk(e, l, hist) && l.base <= k <= |l.log.batches|
    ensures Snapshot(l, k).Coherent() && Grounded(Snapshot(l, k), hist)
  {
    var bs, s := l.log.batches, Snapshot(l, k);
    PrefixContiguous(bs, 0, k);
    assert bs[..k] == bs[..l.base] + bs[l.base..k];
    LeaderAppendKeepsMirror(l.log.cache, bs[..l.base], bs[l.base..k]);
    forall j | 0 <= j < |s.cache| ensures EntryGrounded(s, j, hist) {
      PrefixEntryGrounded(l.log, k, j, hist);
    }
  }

  lemma {:induction false} PrefixEntryGrounded(r: ReplicaLog, k: nat, j: nat, hist: Histories)
    requires IsLog(r.batches) && Grounded(r, hist) && k <= |r.batches| && j < |r.cache|
    ensures EntryGrounded(ReplicaLog(r.batches[..k], r.cache), j, hist)
  {
    var p := r.batches[..k];
    assert EntryGrounded(r, j, hist);
    PrefixEnd(r.batches, p);
    CountUpToBoundary(r.batches, k);
    var o, o' := EntryEnd(r.cache, j, Leo(p)), EntryEnd(r.cache, j, r.End());
    UpToOfPrefix(r.batches, Leo(p), o);
    UpToMonotone(r.batches, o, o');
  }

  /** Cutting a log keeps it free of epochs that are not backed by batches. */
  lemma {:induction false} RecentCut(f: ReplicaLog, a: Answer, known: int, led: bool)
    requires f.Coherent() && Recent(f, known, led)
    ensures Recent(Round(f, a).log, known, led)
  {
    if Round(f, a).outcome != Rejected {
      RecentTruncated(f, TruncationOffset(f, EndOffsetFor(f.cache, a.epoch, f.End()), a.end), known, led);
    }
  }

  lemma {:induction false} RecentTruncated(f: ReplicaLog, o: nat, known: int, led: bool)
    requires f.Coherent() && Recent(f, known, led) && Truncate(f, o).Some?
    ensures Recent(Truncate(f, o).value, known, led)
  {
    TruncateIs(f, o);
    if o < f.End() { CutRecent(f, CountUpTo(f.batches, o), o, known, led); }
  }

  lemma {:induction false} PrefixLatest(es: seq<Entry>, p: seq<Entry>)
    requires Increasing(es) && p <= es && |p| > 0
    ensures p[|p| - 1].epoch <= es[|es| - 1].epoch
  {
    IncreasingAt(es, |p| - 1, |es| - 1);
  }

  lemma {:induction false} CutRecent(f: ReplicaLog, k: nat, t: nat, known: int, led: bool)
    requires f.Coherent() && Recent(f, known, led) && k < |f.batches| && t == Leo(f.batches[..k])
    ensures Recent(ReplicaLog(f.batches[..k], StartsBelow(f.cache, t)), known, led)
  {
    var p := StartsBelow(f.cache, t);
    TruncateKeepsMirror(f.cache, f.batches, k);
    if k > 0 {
      PrefixContiguous(f.batches, 0, k);
      RunsLast(f.batches[..k]);
      PrefixLatest(f.cache, p);
    }
  }

  /** A leader that is asked for its own epoch has written in it. */
  lemma {:induction false} SnapshotWritten(known: int, l: Leadership, phase: Phase, k: nat,
                                           epochs: map<int, Leadership>, hist: Histories)
    requires LeadershipOk(known, l, hist) && known in epochs && epochs[known] == l
    requires phase.Asking? && QuestionOk(known, phase, epochs) && phase.seen <= k && l.base <= k <= |l.log.batches|
    ensures Written(Snapshot(l, k), phase.epoch)
  {
    var bs, es := l.log.batches, l.log.cache;
    if phase.epoch == known {
      PrefixContiguous(bs, 0, l.base);
      MirrorStarts(es, bs[..l.base]);
      EndOffsetMonotone(bs, 0, l.base, k);
    }
  }

  /** What one epoch round makes of a follower that the leader answers. */
  lemma {:induction false} RoundSummary(f: ReplicaLog, s: ReplicaLog, epoch: int, hist: Histories)
    requires f.Coherent() && s.Coherent() && Grounded(f, hist) && Grounded(s, hist)
    requires EpochsAtMost(f.batches, epoch)
    ensures var r := Round(f, AnswerOf(s, epoch));
            && r.log.Coherent() && Grounded(r.log, hist)
            && (r.outcome == Settled ==> r.log.batches <= s.batches)
            && (r.outcome.Continue? ==> EpochsAtMost(r.log.batches, r.outcome.epoch) && r.outcome.epoch < epoch)
            && (f.batches <= s.batches ==> r.log == f)
  {
    var a := AnswerOf(s, epoch);
    RoundKeepsState(f, a, hist);
    if Round(f, a).outcome == Settled { SettledRoundIsPrefix(f, s, epoch, hist); }
    if Round(f, a).outcome.Continue? { var j := RoundContinues(f, a); }
    if f.batches <= s.batches { RoundOnPrefix(f, s, epoch); }
  }

  /**
   A round that ends on an unknown epoch leaves a prefix of the leader exactly when the answer
   is zero, or lies past the follower's log end and the follower already was a prefix.
   */
  lemma {:induction false} UnknownOnTrack(f: ReplicaLog, s: ReplicaLog, epoch: int, h: seq<Batch>, hist: Histories)
    requires f.Coherent() && s.Coherent() && Grounded(f, hist) && Grounded(s, hist) && Written(s, epoch)
    requires s.batches <= h && Round(f, AnswerOf(s, epoch)).outcome == Unknown
    ensures var end := AnswerOf(s, epoch).end;
            Round(f, AnswerOf(s, epoch)).log.batches <= h <==>
            if end <= f.End() then end == 0 else Confirmed(f, s)
  {
    var a := AnswerOf(s, epoch);
    if a.end <= f.End() {
      UnknownCut(f, s, epoch, h);
    } else {
      UnknownLeft(f, a);
      UpToAll(f.batches);
      AnswerWithinLog(s, epoch);
      PrefixIffConfirmed(f, s, hist);
      if f.batches <= h { PrefixesMeet(f.batches, s.batches, h); }
    }
  }

  lemma {:induction false} AnswerWithinLog(l: ReplicaLog, epoch: int)
    requires l.Coherent()
    ensures AnswerOf(l, epoch).end <= l.End()
  {
    MirrorStarts(l.cache, l.batches);
  }

  /** The follower after an epoch round: an unknown-epoch exit is on track if and only if it is clean. */
  ghost predicate Heard(n: Node, l: Leadership, k: nat, hist: Histories)
    requires n.phase.Asking? && k <= |l.log.batches|
  {
    var r, end := HearRound(n, l, k), HeardAnswer(n, l, k).end;
    && r.log.Coherent() && Grounded(r.log, hist)
    && (r.outcome == Settled ==> r.log.batches <= l.log.batches)
    && (r.outcome == Unknown ==>
          (r.log.batches <= l.log.batches <==>
           if end <= n.st.End() then end == 0 else Confirmed(n.st.log, Snapshot(l, k))))
    && (r.outcome.Continue? ==> EpochsAtMost(r.log.batches, r.outcome.epoch) && r.outcome.epoch < n.phase.epoch)
    && (n.st.log.batches <= l.log.batches[..k] ==> r.log == n.st.log)
  }

  lemma {:induction false} HearNode(n: Node, l: Leadership, k: nat, epochs: map<int, Leadership>, hist: Histories)
    requires n.phase.Asking? && LeadershipOk(n.known, l, hist) && n.phase.seen <= k && l.base <= k <= |l.log.batches|
    requires n.known in epochs && epochs[n.known] == l && QuestionOk(n.known, n.phase, epochs)
    requires n.st.log.Coherent() && Grounded(n.st.log, hist) && EpochsAtMost(n.st.log.batches, n.phase.epoch)
    ensures Heard(n, l, k, hist)
  {
    var s := Snapshot(l, k);
    SnapshotOk(n.known, l, k, hist);
    SnapshotWritten(n.known, l, n.phase, k, epochs, hist);
    RoundSummary(n.st.log, s, n.phase.epoch, hist);
    assert s.batches <= l.log.batches;
    if HearRound(n, l, k).outcome == Unknown { UnknownOnTrack(n.st.log, s, n.phase.epoch, l.log.batches, hist); }
  }

  lemma {:induction false} HearOk(c: Cluster, a: Action)
    requires Safe(c) && a.Hear? && Enabled(c, a) && Clean(c, a)
    ensures StepOk(c, Next(c, a), a.id)
  {
    var n, n' := c.nodes[a.id], Next(c, a).nodes[a.id];
    assert NodeOk(a.id, n, c.epochs, c.requests);
    assert LeadershipOk(n.known, c.epochs[n.known], Hist(c.epochs));
    HearNode(n, c.epochs[n.known], a.k, c.epochs, Hist(c.epochs));
    RecentCut(n.st.log, HeardAnswer(n, c.epochs[n.known], a.k), n.known, Leads(a.id, n.known, c.epochs));
    HeardOk(a.id, n, a.k, HearRound(n, c.epochs[n.known], a.k), n', c.epochs, c.requests);
    NodeStep(c, a.id, n');
  }

  lemma {:induction false} HeardOk(id: int, n: Node, k: nat, r: RoundResult, n': Node,
                epochs: map<int, Leadership>, requests: set<FetchRequest>)
    requires NodeOk(id, n, epochs, requests) && n.phase.Asking? && n.known in epochs
    requires n.phase.seen <= k <= |epochs[n.known].log.batches|
    requires r.log.Coherent() && Grounded(r.log, Hist(epochs)) && Recent(r.log, n.known, Leads(id, n.known, epochs))
    requires r.outcome == Settled || r.outcome == Unknown ==> r.log.batches <= epochs[n.known].log.batches
    requires r.outcome.Continue? ==> EpochsAtMost(r.log.batches, r.outcome.epoch) && r.outcome.epoch < n.phase.epoch
    requires n.st.log.batches <= epochs[n.known].log.batches[..k] ==> r.log == n.st.log
    requires n'.st == Trimmed(n.st, r.log) && n'.known == n.known
    requires match r.outcome
             case Rejected => n'.phase == Unreconciled
             case Settled => n'.phase == Fetching
             case Unknown => n'.phase == Fetching
             case Continue(e) => n'.phase == Asking(e, |epochs[n.known].log.batches|)
    ensures NodeOk(id, n', epochs, requests)
    ensures forall q :: RequestOk(q, n, epochs) ==> RequestOk(q, n', epochs)
  {
    forall q | RequestOk(q, n, epochs) ensures RequestOk(q, n', epochs) {
      if q.epoch == n.known {
        assert n.st.log.batches <= epochs[n.known].log.batches[..k];
      }
    }
  }

  // ----- Late answers -----

  /** A cut leaves a follower consistent; what it requested in its epoch survives iff the cut is past it. */
  lemma {:induction false} CutNode(id: int, n: Node, o: nat, epochs: map<int, Leadership>,
                                   requests: set<FetchRequest>)
    requires NodeOk(id, n, epochs, requests) && !n.st.isLeader
    ensures var n' := n.(st := TruncateTo(n.st, o).state);
            && NodeOk(id, n', epochs, requests)
            && n'.st.End() == (if IsBoundary(n.st.log.batches, o) then o else n.st.End())
            && forall q :: RequestOk(q, n, epochs) ==>
                             (RequestOk(q, n', epochs) <==> (q.epoch == n.known ==> q.offset <= n'.st.End()))
  {
    TruncateSucceeds(n.st.log, o);
    if Truncate(n.st.log, o).Some? {
      var r := Truncate(n.st.log, o).value;
      TruncateIs(n.st.log, o);
      TruncateKeepsGrounded(n.st.log, o, Hist(epochs));
      RecentTruncated(n.st.log, o, n.known, Leads(id, n.known, epochs));
      CutOk(id, n, r, epochs, requests);
    }
  }

  lemma {:induction false} CutOk(id: int, n: Node, r: ReplicaLog, epochs: map<int, Leadership>,
                                 requests: set<FetchRequest>)
    requires NodeOk(id, n, epochs, requests) && !n.st.isLeader && r.batches <= n.st.log.batches
    requires r.Coherent() && Grounded(r, Hist(epochs)) && Recent(r, n.known, Leads(id, n.known, epochs))
    ensures var n' := n.(st := Trimmed(n.st, r));
            && NodeOk(id, n', epochs, requests)
            && forall q :: RequestOk(q, n, epochs) ==>
                             (RequestOk(q, n', epochs) <==> (q.epoch == n.known ==> q.offset <= n'.st.End()))
  {
    if n.phase.Asking? { PrefixAtMost(n.st.log.batches, r.batches, n.phase.epoch); }
    CutTrack(n, r, epochs);
  }

  lemma {:induction false} CutTrack(n: Node, r: ReplicaLog, epochs: map<int, Leadership>)
    requires r.batches <= n.st.log.batches
    ensures OnTrack(epochs, n) ==> OnTrack(epochs, n.(st := Trimmed(n.st, r)))
  {
  }

  lemma {:induction false} CutStepOk(c: Cluster, id: int, o: nat)
    requires Safe(c) && id in c.nodes && !c.nodes[id].st.isLeader
    requires IsBoundary(c.nodes[id].st.log.batches, o) ==>
               forall q :: q in c.requests && q.follower == id && q.epoch == c.nodes[id].known ==> q.offset <= o
    ensures StepOk(c, SetState(c, id, TruncateTo(c.nodes[id].st, o).state), id)
  {
    var n := c.nodes[id];
    var n' := n.(st := TruncateTo(n.st, o).state);
    assert NodeOk(id, n, c.epochs, c.requests);
    CutNode(id, n, o, c.epochs, c.requests);
    forall q | q in c.requests && q.follower == id ensures RequestOk(q, n', c.epochs) {
      assert RequestOk(q, n, c.epochs);
    }
    NodeStep(c, id, n');
  }

  lemma {:induction false} StayOk(c: Cluster, id: int)
    requires Safe(c) && id in c.nodes
    ensures StepOk(c, c, id)
  {
    NodeStep(c, id, c.nodes[id]);
    assert c.nodes[id := c.nodes[id]] == c.nodes;
  }

  lemma {:induction false} HearLateOk(c: Cluster, a: Action)
    requires Safe(c) && a.HearLate? && Enabled(c, a) && Clean(c, a)
    ensures StepOk(c, Next(c, a), a.id)
  {
    var o := LateOffset(c.epochs[a.epoch], a.asked, a.k, a.was);
    if o.Some? { CutStepOk(c, a.id, o.value); } else { StayOk(c, a.id); }
  }

  // ----- Replica append -----

  /** A log that is a prefix of a grounded log, with its compression as cache, is grounded. */
  lemma {:induction false} PrefixGrounded(r: ReplicaLog, l: ReplicaLog, hist: Histories)
    requires r.Coherent() && r.cache == Runs(r.batches) && r.batches <= l.batches
    requires l.Coherent() && Grounded(l, hist)
    ensures Grounded(r, hist)
  {
    forall j | 0 <= j < |r.cache| ensures EntryGrounded(r, j, hist) {
      var k := LastOfRun(r, j);
      var q := EntryOf(l.cache, l.batches, k - 1);
      assert EntryGrounded(l, q, hist);
      var p := r.batches[..k];
      assert p == l.batches[..k] && p[k - 1] == r.batches[k - 1];
      PrefixSurvives(l.batches, p, EntryEnd(l.cache, q, l.End()));
    }
  }

  /** The batches up to the end of a run end with a batch of that run. */
  lemma {:induction false} LastOfRun(r: ReplicaLog, j: nat) returns (k: nat)
    requires r.Coherent() && r.cache == Runs(r.batches) && j < |r.cache|
    ensures 0 < k <= |r.batches|
    ensures UpTo(r.batches, EntryEnd(r.cache, j, r.End())) == r.batches[..k]
    ensures r.batches[k - 1].epoch == r.cache[j].epoch
  {
    var o := EntryEnd(r.cache, j, r.End());
    k := CountUpTo(r.batches, o);
    EntryEndBoundary(r, j);
    RunNotEmpty(r, j);
    assert k > 0;
    assert r.batches[..k][k - 1] == r.batches[k - 1];
    OwnerOfLast(r, j, k - 1);
  }

  lemma {:induction false} RunNotEmpty(r: ReplicaLog, j: nat)
    requires r.Coherent() && r.cache == Runs(r.batches) && j < |r.cache|
    ensures r.cache[j].start < EntryEnd(r.cache, j, r.End())
  {
    var i := RunStart(r.batches, j);
    EndOffsetMonotone(r.batches, 0, i + 1, |r.batches|);
    assert r.batches[..i + 1][i] == r.batches[i] && r.batches[..|r.batches|] == r.batches;
    if j + 1 < |r.cache| { IncreasingAt(r.cache, j, j + 1); }
  }

  /** A piece of the leader's log that starts at the follower's log end extends the follower along it. */
  lemma {:induction false} PieceExtends(bs: seq<Batch>, h: seq<Batch>, i: nat, piece: seq<Batch>)
    requires IsLog(h) && bs <= h && i + |piece| <= |h| && piece == h[i..i + |piece|]
    requires |piece| > 0 && piece[0].base == Leo(bs)
    ensures bs + piece <= h
  {
    assert piece[0] == h[i] && bs == h[..|bs|];
    CountUpToBoundary(h, i);
    CountUpToBoundary(h, |bs|);
    assert i == |bs|;
    assert bs + piece == h[..i + |piece|];
  }

  lemma {:induction false} FirstOffset(data: seq<Batch>, from: nat)
    requires OffsetsFollow(data, from) && |data| > 0
    ensures data[0].base == from
    decreases |data|
  {
    if |data| > 1 { FirstOffset(data[..|data| - 1], from); }
  }

  /** The log after a clean delivery: still on track, coherent and grounded. */
  lemma {:induction false} DeliverLog(r: ReplicaLog, data: seq<Batch>, epoch: int, l: ReplicaLog, i: nat, j: nat,
                                      hist: Histories, led: bool)
    requires r.Coherent() && Grounded(r, hist) && r.batches <= l.batches && Recent(r, epoch, led)
    requires l.Coherent() && Grounded(l, hist)
    requires i <= j <= |l.batches| && data == l.batches[i..j]
    requires var added := Added(r, data, epoch);
             |added| > 0 ==> FirstEpochFits(r.cache, r.batches, added[0].epoch)
    ensures var r' := AppendReplica(r, data, epoch).0;
            && r.batches <= r'.batches <= l.batches && r'.Coherent() && Grounded(r', hist)
            && Recent(r', epoch, led)
  {
    var added := AppendReplicaIs(r, data, epoch);
    if |added| > 0 {
      PrefixOfSlice(l.batches, i, j, added);
      AddedOnTrack(r, added, l, i, hist);
      RecentRuns(AppendReplica(r, data, epoch).0, epoch, led);
    }
  }

  lemma {:induction false} AppendReplicaIs(r: ReplicaLog, data: seq<Batch>, epoch: int) returns (added: seq<Batch>)
    ensures added == Added(r, data, epoch) && added <= data
    ensures |added| > 0 ==> added[|added| - 1].epoch <= epoch
    ensures |added| == 0 ==> AppendReplica(r, data, epoch).0 == r
    ensures |added| > 0 ==>
              && AppendReplica(r, data, epoch).0 == ReplicaLog(r.batches + added, AssignAll(r.cache, Runs(added)))
              && OffsetsFollow(added, r.End()) && EpochsFollow(added) && added[0].epoch >= 0
  {
    added := Added(r, data, epoch);
  }

  lemma {:induction false} AddedOnTrack(r: ReplicaLog, added: seq<Batch>, l: ReplicaLog, i: nat, hist: Histories)
    requires r.Coherent() && l.Coherent() && Grounded(l, hist) && r.batches <= l.batches
    requires |added| > 0 && OffsetsFollow(added, r.End()) && EpochsFollow(added) && added[0].epoch >= 0
    requires i + |added| <= |l.batches| && added == l.batches[i..i + |added|]
    requires FirstEpochFits(r.cache, r.batches, added[0].epoch)
    ensures var r' := ReplicaLog(r.batches + added, AssignAll(r.cache, Runs(added)));
            && r.batches <= r'.batches <= l.batches && r'.Coherent() && Grounded(r', hist)
            && r'.cache == Runs(r'.batches)
  {
    FirstOffset(added, r.End());
    PieceExtends(r.batches, l.batches, i, added);
    EpochsFollowNonDecreasing(added);
    AddedGrounded(r, added, l, hist);
  }

  lemma {:induction false} AddedGrounded(r: ReplicaLog, added: seq<Batch>, l: ReplicaLog, hist: Histories)
    requires r.Coherent() && l.Coherent() && Grounded(l, hist)
    requires |added| > 0 && NonDecreasing(added) && r.batches + added <= l.batches
    requires FirstEpochFits(r.cache, r.batches, added[0].epoch)
    ensures var r' := ReplicaLog(r.batches + added, AssignAll(r.cache, Runs(added)));
            r'.Coherent() && Grounded(r', hist) && r'.cache == Runs(r'.batches)
  {
    PrefixEnd(l.batches, r.batches + added);
    ReplicaAppendMirror(r.cache, r.batches, added);
    PrefixGrounded(ReplicaLog(r.batches + added, AssignAll(r.cache, Runs(added))), l, hist);
  }

  lemma {:induction false} PieceWellFormed(bs: seq<Batch>, i: nat, j: nat)
    requires IsLog(bs) && i <= j <= |bs|
    ensures WellFormedData(bs[i..j])
  {
  }

  /** A follower whose log moves forward along the leader's. */
  lemma {:induction false} FollowerAdvances(id: int, n: Node, st: State, epochs: map<int, Leadership>,
                                            requests: set<FetchRequest>)
    requires NodeOk(id, n, epochs, requests) && !n.st.isLeader && !n.phase.Asking?
    requires st == n.st.(log := st.log, hw := st.hw) && Inv(st)
    requires Grounded(st.log, Hist(epochs)) && OnTrack(epochs, n.(st := st)) && n.st.End() <= st.End()
    requires Recent(st.log, n.known, Leads(id, n.known, epochs))
    ensures NodeOk(id, n.(st := st), epochs, requests)
    ensures forall r :: RequestOk(r, n, epochs) ==> RequestOk(r, n.(st := st), epochs)
  {
  }

  lemma {:induction false} DeliverOk(c: Cluster, a: Action)
    requires Safe(c) && a.Deliver? && Enabled(c, a) && Clean(c, a)
    ensures StepOk(c, Next(c, a), a.id)
  {
    var n, s := c.nodes[a.id], a.response;
    assert NodeOk(a.id, n, c.epochs, c.requests) && ResponseOk(s, c.epochs, c.requests);
    assert LeadershipOk(s.epoch, c.epochs[s.epoch], Hist(c.epochs));
    assert RequestOk(FetchRequest(s.follower, s.epoch, s.offset), n, c.epochs);
    var st := AppendFromLeader(n.st, s.data, s.epoch, s.hw).state;
    if st != n.st {
      DeliverState(n, s, c.epochs, Leads(a.id, n.known, c.epochs), c.requests);
      FollowerAdvances(a.id, n, st, c.epochs, c.requests);
    }
    NodeStep(c, a.id, n.(st := st));
  }

  lemma {:induction false} DeliverState(n: Node, s: FetchResponse, epochs: map<int, Leadership>, led: bool,
                                        requests: set<FetchRequest>)
    requires Inv(n.st) && Grounded(n.st.log, Hist(epochs)) && OnTrack(epochs, n) && Recent(n.st.log, n.known, led)
    requires ResponseOk(s, epochs, requests) && n.known == s.epoch
    requires LeadershipOk(s.epoch, epochs[s.epoch], Hist(epochs))
    requires var added := Added(n.st.log, s.data, s.epoch);
             |added| > 0 ==> FirstEpochFits(n.st.log.cache, n.st.log.batches, added[0].epoch)
    ensures var st := AppendFromLeader(n.st, s.data, s.epoch, s.hw).state;
            && st == n.st.(log := st.log, hw := st.hw) && Inv(st) && Grounded(st.log, Hist(epochs))
            && OnTrack(epochs, n.(st := st)) && n.st.End() <= st.End() && Recent(st.log, n.known, led)
  {
    var l, hist := epochs[s.epoch], Hist(epochs);
    var i, j :| 0 <= i <= j <= |l.log.batches| && s.data == l.log.batches[i..j];
    SnapshotOk(s.epoch, l, |l.log.batches|, hist);
    assert Snapshot(l, |l.log.batches|) == l.log;
    DeliverLog(n.st.log, s.data, s.epoch, l.log, i, j, hist, led);
    PieceWellFormed(l.log.batches, i, j);
    DeliveredState(n.st, s.data, s.epoch, s.hw);
  }

  lemma {:induction false} RecentRuns(r: ReplicaLog, known: int, led: bool)
    requires IsLog(r.batches) && |r.batches| > 0 && r.cache == Runs(r.batches)
    requires r.batches[|r.batches| - 1].epoch <= known
    ensures Recent(r, known, led)
  {
    RunsLast(r.batches);
  }

  /** A delivery either changes nothing or is exactly a replica append, with HW within the log. */
  lemma {:induction false} DeliveredState(st: State, data: seq<Batch>, epoch: int, hw: nat)
    requires Inv(st) && WellFormedData(data) && AppendReplica(st.log, data, epoch).0.Coherent()
    ensures var st' := AppendFromLeader(st, data, epoch, hw).state;
            && st' == st.(log := st'.log, hw := st'.hw) && Inv(st') && st.End() <= st'.End()
            && (st'.log == st.log || st'.log == AppendReplica(st.log, data, epoch).0)
  {
    AppendReplicaCoherent(st.log, data, epoch);
    PartitionRuns.ReplicateStep(st, data, epoch, hw);
    PartitionRuns.AppendReplicaExtends(st.log, data, epoch);
  }

  // ----- Election -----

  lemma {:induction false} ElectGrounded(r: ReplicaLog, epoch: int, hist: Histories, hist': Histories)
    requires r.Coherent() && Grounded(r, hist) && HistGrows(hist, hist')
    requires epoch >= 0 && epoch !in hist && (|r.cache| > 0 ==> epoch >= r.cache[|r.cache| - 1].epoch)
    requires epoch in hist' && hist'[epoch] == r.batches
    ensures Grounded(r.(cache := Assigned(r.cache, epoch, r.End())), hist')
  {
    assert |r.cache| > 0 ==> EntryGrounded(r, |r.cache| - 1, hist);
    AssignKeepsMirror(r.cache, r.batches, epoch);
    MirrorRuns(r.cache, r.batches);
    TrailingGrounded(r, Runs(r.batches), epoch, hist, hist');
  }

  lemma {:induction false} TrailingGrounded(r: ReplicaLog, runs: seq<Entry>, epoch: int, hist: Histories,
                                            hist': Histories)
    requires Grounded(r, hist) && HistGrows(hist, hist')
    requires runs <= r.cache && |r.cache| <= |runs| + 1
    requires |runs| < |r.cache| ==> r.cache[|runs|].start == r.End()
    requires epoch in hist' && hist'[epoch] == r.batches
    ensures Grounded(r.(cache := runs + [Entry(epoch, r.End())]), hist')
  {
    var r' := r.(cache := runs + [Entry(epoch, r.End())]);
    UpToAll(r.batches);
    forall j | 0 <= j < |r'.cache| ensures EntryGrounded(r', j, hist') {
      if j < |runs| {
        assert EntryGrounded(r, j, hist);
        assert r'.cache[j] == r.cache[j];
        assert j + 1 < |runs| ==> r'.cache[j + 1] == r.cache[j + 1];
      }
    }
  }

  lemma {:induction false} ElectOk(c: Cluster, a: Action)
    requires Safe(c) && a.Elect? && Enabled(c, a)
    ensures StepOk(c, Next(c, a), a.id)
  {
    var n := c.nodes[a.id];
    assert NodeOk(a.id, n, c.epochs, c.requests);
    ElectState(a.id, n, a.epoch, a.isr, c.epochs);
    OlderEpochs(n.st.log, n.known, Leads(a.id, n.known, c.epochs), a.epoch);
    TakeOver(c, a.id, a.epoch, MakeLeader(n.st, a.epoch, a.isr, n.st.hw).state);
  }

  lemma {:induction false} OlderEpochs(r: ReplicaLog, known: int, led: bool, epoch: int)
    requires r.Coherent() && Recent(r, known, led) && known < epoch
    ensures forall i :: 0 <= i < |r.batches| ==> r.batches[i].epoch < epoch
  {
    forall i | 0 <= i < |r.batches| ensures r.batches[i].epoch < epoch { MirrorLatest(r.cache, r.batches, i); }
  }

  lemma {:induction false} ElectState(id: int, n: Node, epoch: int, isr: seq<int>, epochs: map<int, Leadership>)
    requires Inv(n.st) && n.st.local == id && Grounded(n.st.log, Hist(epochs))
    requires epoch >= 0 && epoch !in epochs && MakeLeader(n.st, epoch, isr, n.st.hw).error.None?
    ensures var st := MakeLeader(n.st, epoch, isr, n.st.hw).state;
            && Inv(st) && st.isLeader && st.leaderEpoch == epoch && st.local == id
            && (forall i :: 0 <= i < |st.isr| ==> st.isr[i].leo == 0)
            && Grounded(st.log, Hist(epochs[epoch := Leadership(id, st.log, |st.log.batches|)]))
  {
    var st := MakeLeader(n.st, epoch, isr, n.st.hw).state;
    PartitionRuns.LeadStep(n.st, epoch, isr, n.st.hw);
    ElectHistory(id, n.st.log, epoch, epochs, st.log);
  }

  lemma {:induction false} ElectHistory(id: int, r: ReplicaLog, epoch: int, epochs: map<int, Leadership>,
                                        r': ReplicaLog)
    requires r.Coherent() && Grounded(r, Hist(epochs)) && epoch >= 0 && epoch !in epochs
    requires |r.cache| > 0 ==> epoch >= r.cache[|r.cache| - 1].epoch
    requires r' == r.(cache := Assigned(r.cache, epoch, r.End()))
    ensures Grounded(r', Hist(epochs[epoch := Leadership(id, r', |r'.batches|)]))
  {
    var epochs' := epochs[epoch := Leadership(id, r', |r'.batches|)];
    ExtendsHist(epochs, epochs', id);
    ElectGrounded(r, epoch, Hist(epochs), Hist(epochs'));
  }

  lemma {:induction false} TakeOver(c: Cluster, id: int, epoch: int, st: State)
    requires Safe(c) && id in c.nodes && epoch > c.nodes[id].known && epoch >= 0 && epoch !in c.epochs
    requires Inv(st) && st.isLeader && st.leaderEpoch == epoch && st.local == id
    requires forall i :: 0 <= i < |st.isr| ==> st.isr[i].leo == 0
    requires Grounded(st.log, Hist(c.epochs[epoch := Leadership(id, st.log, |st.log.batches|)]))
    requires forall i :: 0 <= i < |st.log.batches| ==> st.log.batches[i].epoch < epoch
    ensures var l := Leadership(id, st.log, |st.log.batches|);
            StepOk(c, c.(nodes := c.nodes[id := Node(st, epoch, Unreconciled)], epochs := c.epochs[epoch := l]), id)
  {
    var epochs' := c.epochs[epoch := Leadership(id, st.log, |st.log.batches|)];
    NewLeadership(id, epoch, st, epochs', c.requests);
    forall r | r in c.requests && r.follower == id
      ensures RequestOk(r, Node(st, epoch, Unreconciled), epochs')
    {
      assert RequestOk(r, c.nodes[id], c.epochs);
    }
    GrowStep(c, id, Node(st, epoch, Unreconciled), epochs', {});
    assert c.acks + {} == c.acks;
  }

  lemma {:induction false} NewLeadership(id: int, epoch: int, st: State, epochs: map<int, Leadership>,
                                         requests: set<FetchRequest>)
    requires Inv(st) && st.isLeader && st.leaderEpoch == epoch && st.local == id && epoch >= 0
    requires forall i :: 0 <= i < |st.isr| ==> st.isr[i].leo == 0
    requires epoch in epochs && epochs[epoch] == Leadership(id, st.log, |st.log.batches|)
    requires Grounded(st.log, Hist(epochs))
    requires forall i :: 0 <= i < |st.log.batches| ==> st.log.batches[i].epoch < epoch
    ensures LeadershipOk(epoch, epochs[epoch], Hist(epochs))
    ensures NodeOk(id, Node(st, epoch, Unreconciled), epochs, requests)
  {
    assert st.log.batches[..|st.log.batches|] == st.log.batches;
  }

  // ----- Leader steps -----

  /** An advance counts only on members whose recorded offset reaches it. */
  lemma {:induction false} NewAcksOk(before: State, after: State, requests: set<FetchRequest>)
    requires after.hw > before.hw ==>
               after.isLeader && |after.isr| > 0 && after.hw == IsrMin(after.isr, after.local, after.End())
    requires IsrRecorded(after, requests)
    ensures forall a :: a in NewAcks(before, after) ==> AckOk(a, requests)
  {
    forall a | a in NewAcks(before, after) ensures AckOk(a, requests) {
      var i :| 0 <= i < |after.isr| && after.isr[i].broker != after.local
               && a == Ack(after.leaderEpoch, after.isr[i].broker, after.hw);
      assert after.hw <= after.isr[i].leo;
      assert FetchRequest(after.isr[i].broker, after.leaderEpoch, after.isr[i].leo) in requests;
    }
  }

  /** A leader that changes its ISR and advances: its log stays, and the advance is backed by requests. */
  lemma {:induction false} AdvanceNode(id: int, n: Node, isr: seq<IsrEntry>, epochs: map<int, Leadership>,
                                       requests: set<FetchRequest>)
    requires NodeOk(id, n, epochs, requests) && n.st.isLeader && IsrRecorded(n.st.(isr := isr), requests)
    ensures var st := AdvanceHw(n.st.(isr := isr));
            && NodeOk(id, n.(st := st), epochs, requests)
            && (forall r :: RequestOk(r, n, epochs) ==> RequestOk(r, n.(st := st), epochs))
            && (forall a :: a in NewAcks(n.st, st) ==> AckOk(a, requests))
  {
    PartitionRuns.AdvanceHwBounds(n.st.(isr := isr));
    NewAcksOk(n.st, AdvanceHw(n.st.(isr := isr)), requests);
  }

  /** A leader step that leaves the log alone. */
  lemma {:induction false} LeaderStepOk(c: Cluster, id: int, isr: seq<IsrEntry>)
    requires Safe(c) && id in c.nodes && c.nodes[id].st.isLeader
    requires IsrRecorded(c.nodes[id].st.(isr := isr), c.requests)
    ensures StepOk(c, LeaderStep(c, id, AdvanceHw(c.nodes[id].st.(isr := isr))), id)
  {
    var n := c.nodes[id];
    assert NodeOk(id, n, c.epochs, c.requests);
    AdvanceNode(id, n, isr, c.epochs, c.requests);
    var st := AdvanceHw(n.st.(isr := isr));
    forall r | r in c.requests && r.follower == id ensures RequestOk(r, n.(st := st), c.epochs) {
      assert RequestOk(r, n, c.epochs);
    }
    GrowStep(c, id, n.(st := st), c.epochs, NewAcks(n.st, st));
  }

  lemma {:induction false} RecordedLeoFrom(isr: seq<IsrEntry>, id: int)
    ensures RecordedLeo(isr, id) == 0 || IsrEntry(id, RecordedLeo(isr, id)) in isr
  {
    if |isr| > 0 { RecordedLeoFrom(isr[..|isr| - 1], id); }
  }

  lemma {:induction false} SetIsrOk(c: Cluster, a: Action)
    requires Safe(c) && a.SetIsr? && Enabled(c, a)
    ensures StepOk(c, Next(c, a), a.id)
  {
    var n := c.nodes[a.id];
    assert NodeOk(a.id, n, c.epochs, c.requests);
    var isr := NewIsr(n.st.isr, a.isr);
    forall i | 0 <= i < |isr| && isr[i].broker != n.st.local
      ensures isr[i].leo == 0 || FetchRequest(isr[i].broker, n.st.leaderEpoch, isr[i].leo) in c.requests
    {
      RecordedLeoFrom(n.st.isr, isr[i].broker);
    }
    assert IsrRecorded(n.st.(isr := isr), c.requests);
    LeaderStepOk(c, a.id, isr);
  }

  /** What serving a fetch does: record the follower's end, and send batches from its offset on. */
  lemma {:induction false} ServeFetchIs(c: Cluster, a: Action) returns (i: nat, j: nat, s: FetchResponse)
    requires a.ServeFetch? && Enabled(c, a) && a.request.epoch >= 0
    ensures var n, q := c.nodes[a.id], a.request;
            var st := UpdateFollowerLeo(n.st, q.follower, q.offset);
            && n.st.isLeader && q.epoch == n.st.leaderEpoch && q in c.requests
            && q == FetchRequest(s.follower, s.epoch, s.offset)
            && i <= j <= |n.st.log.batches| && s.data == n.st.log.batches[i..j]
            && Next(c, a) == LeaderStep(c, a.id, st).(responses := c.responses + {s})
  {
    var n, q := c.nodes[a.id], a.request;
    var st := UpdateFollowerLeo(n.st, q.follower, q.offset);
    var b := n.st.log.batches;
    i := CountUpTo(b, q.offset);
    j := i + Min(a.count, |b| - i);
    SliceOfSlice(b, i, j - i);
    PartitionRuns.AdvanceHwBounds(n.st.(isr := RecordLeo(n.st.isr, q.follower, q.offset)));
    s := FetchResponse(q.follower, q.epoch, q.offset, b[i..j], st.hw);
  }

  lemma {:induction false} ServeFetchOk(c: Cluster, a: Action)
    requires Safe(c) && a.ServeFetch? && Enabled(c, a)
    ensures StepOk(c, Next(c, a), a.id)
  {
    assert RequestOk(a.request, c.nodes[a.request.follower], c.epochs);
    var i, j, s := ServeFetchIs(c, a);
    ServedOk(c, a.id, a.request, s, i, j);
  }

  lemma {:induction false} ServedOk(c: Cluster, id: int, q: FetchRequest, s: FetchResponse, i: nat, j: nat)
    requires Safe(c) && id in c.nodes && c.nodes[id].st.isLeader
    requires q in c.requests && q.epoch == c.nodes[id].st.leaderEpoch
    requires q == FetchRequest(s.follower, s.epoch, s.offset)
    requires i <= j <= |c.nodes[id].st.log.batches| && s.data == c.nodes[id].st.log.batches[i..j]
    ensures var st := UpdateFollowerLeo(c.nodes[id].st, q.follower, q.offset);
            StepOk(c, LeaderStep(c, id, st).(responses := c.responses + {s}), id)
  {
    var n := c.nodes[id];
    assert NodeOk(id, n, c.epochs, c.requests);
    assert q == FetchRequest(q.follower, n.st.leaderEpoch, q.offset);
    var isr := RecordLeo(n.st.isr, q.follower, q.offset);
    assert IsrRecorded(n.st.(isr := isr), c.requests);
    LeaderStepOk(c, id, isr);
    AddResponse(c, LeaderStep(c, id, AdvanceHw(n.st.(isr := isr))), id, s, i, j);
  }

  lemma {:induction false} AddResponse(c: Cluster, c': Cluster, id: int, s: FetchResponse, i: nat, j: nat)
    requires StepOk(c, c', id) && c'.responses == c.responses
    requires FetchRequest(s.follower, s.epoch, s.offset) in c'.requests
    requires s.epoch in c'.epochs && i <= j <= |c'.epochs[s.epoch].log.batches|
    requires s.data == c'.epochs[s.epoch].log.batches[i..j]
    ensures StepOk(c, c'.(responses := c.responses + {s}), id)
  {
    assert ResponseOk(s, c'.epochs, c'.requests);
  }

  lemma {:induction false} UpToExtend(bs: seq<Batch>, more: seq<Batch>, o: nat)
    requires IsLog(bs + more) && o <= Leo(bs)
    ensures UpTo(bs + more, o) <= UpTo(bs, o)
  {
    var all := bs + more;
    assert all[..|bs|] == bs;
    CountUpToBoundary(all, |bs|);
    UpToMonotone(all, o, Leo(bs));
    PrefixContiguous(all, 0, |bs|);
    var k := CountUpTo(all, o);
    CountUpToAt(all, o);
    assert all[..k] == bs[..k];
    CountUpToBoundary(bs, k);
    UpToMonotone(bs, Leo(bs[..k]), o);
  }

  /** A leader's append keeps its own history grounded. */
  lemma {:induction false} ProduceGrounded(r: ReplicaLog, more: seq<Batch>, hist: Histories, hist': Histories)
    requires r.Coherent() && Grounded(r, hist) && HistGrows(hist, hist') && |r.cache| > 0
    requires IsLog(r.batches + more)
    requires r.cache[|r.cache| - 1].epoch in hist' && hist'[r.cache[|r.cache| - 1].epoch] == r.batches + more
    ensures Grounded(r.(batches := r.batches + more), hist')
  {
    var r' := r.(batches := r.batches + more);
    MirrorStarts(r.cache, r.batches);
    forall j | 0 <= j < |r'.cache| ensures EntryGrounded(r', j, hist') {
      assert EntryGrounded(r, j, hist);
      if j + 1 < |r.cache| {
        UpToExtend(r.batches, more, r.cache[j + 1].start);
      }
    }
  }

  lemma {:induction false} ProduceOk(c: Cluster, a: Action)
    requires Safe(c) && a.Produce? && Enabled(c, a)
    ensures StepOk(c, Next(c, a), a.id)
  {
    var n := c.nodes[a.id];
    assert NodeOk(a.id, n, c.epochs, c.requests);
    var more := Stamp(a.data, n.st.End(), n.known);
    var grown := n.st.(log := n.st.log.(batches := n.st.log.batches + more));
    ProduceGrows(n, a.data, a.maxBytes, more, grown);
    GrowLeader(c, a.id, more, grown);
  }

  lemma {:induction false} ProduceGrows(n: Node, data: seq<Batch>, maxBytes: nat, more: seq<Batch>, grown: State)
    requires Inv(n.st) && n.st.leaderEpoch == n.known && WellFormedData(data)
    requires AppendRaw(n.st, data, maxBytes).error.None?
    requires more == Stamp(data, n.st.End(), n.known)
    requires grown == n.st.(log := n.st.log.(batches := n.st.log.batches + more))
    ensures AppendRaw(n.st, data, maxBytes).state == AdvanceHw(grown)
    ensures Grows(n, more, grown)
  {
    PartitionRuns.ProduceStep(n.st, data, maxBytes);
    StampLog(data, n.st.End(), n.known);
    ConcatLog(n.st.log.batches, more);
  }

  /** The leader's log, its recorded history and possibly its high watermark grow together. */
  lemma {:induction false} GrowLeader(c: Cluster, id: int, more: seq<Batch>, grown: State)
    requires Safe(c) && id in c.nodes && c.nodes[id].st.isLeader
    requires Grows(c.nodes[id], more, grown)
    ensures var n := c.nodes[id];
            n.known in c.epochs
            && StepOk(c, LeaderStep(c, id, AdvanceHw(grown)).(
                      epochs := c.epochs[n.known := c.epochs[n.known].(log := grown.log)]), id)
  {
    var n := c.nodes[id];
    assert NodeOk(id, n, c.epochs, c.requests) && LeadershipOk(n.known, c.epochs[n.known], Hist(c.epochs));
    var epochs' := c.epochs[n.known := c.epochs[n.known].(log := grown.log)];
    GrowNode(id, n, more, grown, c.epochs, epochs', c.requests);
    GrowStep(c, id, n.(st := AdvanceHw(grown)), epochs', NewAcks(n.st, AdvanceHw(grown)));
  }

  ghost predicate Grows(n: Node, more: seq<Batch>, grown: State) {
    && grown == n.st.(log := n.st.log.(batches := n.st.log.batches + more))
    && IsLog(grown.log.batches) && n.st.End() <= grown.End()
    && (forall i :: 0 <= i < |more| ==> more[i].epoch == n.known)
    && Inv(AdvanceHw(grown))
  }

  lemma {:induction false} GrowNode(id: int, n: Node, more: seq<Batch>, grown: State,
                 epochs: map<int, Leadership>, epochs': map<int, Leadership>, requests: set<FetchRequest>)
    requires NodeOk(id, n, epochs, requests) && n.st.isLeader && Grows(n, more, grown)
    requires LeadershipOk(n.known, epochs[n.known], Hist(epochs))
    requires epochs' == epochs[n.known := epochs[n.known].(log := grown.log)]
    ensures Extends(epochs, epochs', id)
    ensures NodeOk(id, n.(st := AdvanceHw(grown)), epochs', requests)
    ensures LeadershipOk(n.known, epochs'[n.known], Hist(epochs'))
    ensures forall r :: RequestOk(r, n, epochs) ==> RequestOk(r, n.(st := AdvanceHw(grown)), epochs')
    ensures forall a :: a in NewAcks(n.st, AdvanceHw(grown)) ==> AckOk(a, requests)
  {
    PartitionRuns.AdvanceHwBounds(grown);
    NewAcksOk(n.st, AdvanceHw(grown), requests);
    GrowHistory(id, n, more, grown, epochs, epochs');
  }

  lemma {:induction false} GrowHistory(id: int, n: Node, more: seq<Batch>, grown: State,
                    epochs: map<int, Leadership>, epochs': map<int, Leadership>)
    requires n.known in epochs && epochs[n.known].leader == id && n.st.log == epochs[n.known].log
    requires Grows(n, more, grown) && LeadershipOk(n.known, epochs[n.known], Hist(epochs))
    requires n.st.log.Coherent()
    requires epochs' == epochs[n.known := epochs[n.known].(log := grown.log)]
    ensures Extends(epochs, epochs', id)
    ensures LeadershipOk(n.known, epochs'[n.known], Hist(epochs')) && Grounded(grown.log, Hist(epochs'))
  {
    assert n.st.log.batches <= grown.log.batches;
    ExtendsHist(epochs, epochs', id);
    ProduceGrounded(n.st.log, more, Hist(epochs), Hist(epochs'));
    ProduceLeadership(n.known, epochs[n.known], more, Hist(epochs'));
  }

  lemma {:induction false} GrowStep(c: Cluster, id: int, n: Node, epochs: map<int, Leadership>, acks: set<Ack>)
    requires Safe(c) && id in c.nodes && Extends(c.epochs, epochs, id)
    requires NodeOk(id, n, epochs, c.requests)
    requires forall e :: e in epochs && (e in c.epochs ==> epochs[e] != c.epochs[e]) ==>
                           LeadershipOk(e, epochs[e], Hist(epochs))
    requires forall r :: r in c.requests && r.follower == id ==> RequestOk(r, n, epochs)
    requires forall a :: a in acks ==> AckOk(a, c.requests)
    ensures StepOk(c, c.(nodes := c.nodes[id := n], epochs := epochs, acks := c.acks + acks), id)
  {
  }

  lemma {:induction false} ProduceLeadership(e: int, l: Leadership, more: seq<Batch>, hist: Histories)
    requires e >= 0 && l.base <= |l.log.batches| && Latest(l.log.cache) == Some(e)
    requires Mirrors(l.log.cache, l.log.batches[..l.base])
    requires forall i :: 0 <= i < l.base ==> l.log.batches[i].epoch < e
    requires forall i :: l.base <= i < |l.log.batches| ==> l.log.batches[i].epoch == e
    requires IsLog(l.log.batches + more) && forall i :: 0 <= i < |more| ==> more[i].epoch == e
    requires Grounded(l.log.(batches := l.log.batches + more), hist)
    ensures LeadershipOk(e, l.(log := l.log.(batches := l.log.batches + more)), hist)
  {
    assert (l.log.batches + more)[..l.base] == l.log.batches[..l.base];
  }

  // ----- Runs -----

  /** Every clean action keeps the cluster safe. */
  lemma {:induction false} ActionKeepsSafe(c: Cluster, a: Action)
    requires Safe(c) && Enabled(c, a) && Clean(c, a)
    ensures Safe(Next(c, a))
  {
    match a {
      case Elect(_, _, _) => ElectOk(c, a);
      case Follow(_, _, _) => FollowOk(c, a);
      case Unassign(_) => ResetOk(c, a);
      case Forget(_) => ResetOk(c, a);
      case Produce(_, _, _) => ProduceOk(c, a);
      case SetIsr(_, _) => SetIsrOk(c, a);
      case Ask(_) => AskOk(c, a);
      case Hear(_, _) => HearOk(c, a);
      case HearLate(_, _, _, _, _) => HearLateOk(c, a);
      case SendFetch(_) => SendFetchOk(c, a);
      case ServeFetch(_, _, _) => ServeFetchOk(c, a);
      case Deliver(_, _) => DeliverOk(c, a);
    }
    Assemble(c, Next(c, a), a.id);
  }

  /** Brokers with empty logs, none of them assigned yet. */
  ghost predicate Initial(c: Cluster) {
    && (forall id :: id in c.nodes ==>
                       && c.nodes[id].known == -1 && c.nodes[id].phase == Unreconciled
                       && c.nodes[id].st == State(id, ReplicaLog([], []), 0, false, 0, -1, [], false))
    && c.epochs == map[] && c.requests == {} && c.responses == {} && c.acks == {}
  }

  /** `c'` is reached from `c` by a sequence of enabled, clean actions. */
  ghost predicate Reaches(c: Cluster, actions: seq<Action>, c': Cluster) {
    if |actions| == 0 then c == c'
    else
      var n := |actions| - 1;
      exists m :: Reaches(c, actions[..n], m)
                  && Enabled(m, actions[n]) && Clean(m, actions[n]) && c' == Next(m, actions[n])
  }

  lemma {:induction false} ReachesMore(c: Cluster, actions: seq<Action>, m: Cluster, a: Action)
    requires Reaches(c, actions, m) && Enabled(m, a) && Clean(m, a)
    ensures Reaches(c, actions + [a], Next(m, a))
  {
    assert (actions + [a])[..|actions|] == actions;
  }

  lemma {:induction false} LastStep(c: Cluster, actions: seq<Action>, c': Cluster) returns (m: Cluster)
    requires Reaches(c, actions, c') && |actions| > 0
    ensures var n := |actions| - 1;
            Reaches(c, actions[..n], m) && Enabled(m, actions[n]) && Clean(m, actions[n]) && c' == Next(m, actions[n])
  {
    var n := |actions| - 1;
    m :| Reaches(c, actions[..n], m) && Enabled(m, actions[n]) && Clean(m, actions[n]) && c' == Next(m, actions[n]);
  }

  /** Safety is kept by every run. */
  lemma {:induction false} SafeRun(c: Cluster, actions: seq<Action>, c': Cluster)
    requires Safe(c) && Reaches(c, actions, c')
    ensures Safe(c')
  {
    if |actions| > 0 {
      var n := |actions| - 1;
      var m := LastStep(c, actions, c');
      SafeRun(c, actions[..n], m);
      ActionKeepsSafe(m, actions[n]);
    }
  }

  lemma {:induction false} SafeAlways(c: Cluster, actions: seq<Action>, c': Cluster)
    requires Initial(c) && Reaches(c, actions, c')
    ensures Safe(c')
  {
    SafeRun(c, actions, c');
  }

  // ----- What safety means -----

  /** Everything up to a batch is a prefix of the history of its epoch. */
  lemma {:induction false} BatchGrounded(r: ReplicaLog, i: nat, hist: Histories)
    requires r.Coherent() && Grounded(r, hist) && i < |r.batches|
    ensures r.batches[i].epoch in hist && r.batches[..i + 1] <= hist[r.batches[i].epoch]
  {
    var j := EntryOf(r.cache, r.batches, i);
    assert EntryGrounded(r, j, hist);
    var p := r.batches[..i + 1];
    assert p[i] == r.batches[i];
    PrefixSurvives(r.batches, p, EntryEnd(r.cache, j, r.End()));
  }

  /**
   Log matching: if two replicas hold a batch of the same epoch at the same offset, their
   logs are identical up to and including it.
   */
  lemma {:induction false} LogMatching(c: Cluster, x: int, y: int, i: nat, j: nat)
    requires Safe(c) && x in c.nodes && y in c.nodes
    requires i < |c.nodes[x].st.log.batches| && j < |c.nodes[y].st.log.batches|
    requires c.nodes[x].st.log.batches[i].base == c.nodes[y].st.log.batches[j].base
    requires c.nodes[x].st.log.batches[i].epoch == c.nodes[y].st.log.batches[j].epoch
    ensures i == j && c.nodes[x].st.log.batches[..i + 1] == c.nodes[y].st.log.batches[..i + 1]
  {
    var a, b := c.nodes[x].st.log, c.nodes[y].st.log;
    assert NodeOk(x, c.nodes[x], c.epochs, c.requests) && NodeOk(y, c.nodes[y], c.epochs, c.requests);
    BatchGrounded(a, i, Hist(c.epochs));
    BatchGrounded(b, j, Hist(c.epochs));
    SamePlace(a.batches, b.batches, i, j, Hist(c.epochs)[a.batches[i].epoch]);
  }

  lemma {:induction false} SamePlace(a: seq<Batch>, b: seq<Batch>, i: nat, j: nat, h: seq<Batch>)
    requires IsLog(a) && IsLog(b) && i < |a| && j < |b| && a[..i + 1] <= h && b[..j + 1] <= h
    requires a[i].base == b[j].base
    ensures i == j && a[..i + 1] == b[..i + 1]
  {
    PrefixContiguous(a, 0, i + 1);
    PrefixContiguous(b, 0, j + 1);
    var p, q := a[..i + 1], b[..j + 1];
    assert p[i] == a[i] && q[j] == b[j];
    if i < j {
      assert q[i] == p[i];
      OffsetsInOrder(q, i, j);
    } else if j < i {
      assert p[j] == q[j];
      OffsetsInOrder(p, j, i);
    }
  }

  /** A follower that fetches from a serving leader of its epoch is a prefix of it. */
  lemma {:induction false} FetchingIsPrefix(c: Cluster, follower: int, leader: int)
    requires Safe(c) && follower in c.nodes && leader in c.nodes
    requires c.nodes[follower].phase == Fetching && c.nodes[leader].st.isLeader
    requires c.nodes[follower].known == c.nodes[leader].known
    ensures c.nodes[follower].st.log.batches <= c.nodes[leader].st.log.batches
  {
    assert NodeOk(follower, c.nodes[follower], c.epochs, c.requests);
    assert NodeOk(leader, c.nodes[leader], c.epochs, c.requests);
  }

  /** What a leader records of an ISR member still in its epoch never exceeds that member's log. */
  lemma {:induction false} RecordedWithinLog(c: Cluster, leader: int, i: nat)
    requires Safe(c) && leader in c.nodes && c.nodes[leader].st.isLeader && i < |c.nodes[leader].st.isr|
    requires var m := c.nodes[leader].st.isr[i].broker;
             m != leader && m in c.nodes && c.nodes[m].known == c.nodes[leader].known
    ensures var e := c.nodes[leader].st.isr[i];
            && e.leo <= c.nodes[e.broker].st.End()
            && (e.leo > 0 ==> c.nodes[e.broker].st.log.batches <= c.nodes[leader].st.log.batches)
  {
    var n := c.nodes[leader];
    var e := n.st.isr[i];
    assert NodeOk(leader, n, c.epochs, c.requests);
    if e.leo > 0 {
      assert RequestOk(FetchRequest(e.broker, n.st.leaderEpoch, e.leo), c.nodes[e.broker], c.epochs);
    }
  }

  /** A leader step records an advance for every other ISR member. */
  lemma {:induction false} LeaderStepRecords(c: Cluster, id: int, after: State, i: nat)
    requires id in c.nodes && after.hw > c.nodes[id].st.hw
    requires i < |after.isr| && after.isr[i].broker != after.local
    ensures Ack(after.leaderEpoch, after.isr[i].broker, after.hw) in LeaderStep(c, id, after).acks
  {
  }

  /** Each advance of a leader's high watermark is recorded for every other ISR member. */
  lemma {:induction false} AdvanceIsRecorded(c: Cluster, a: Action, leader: int, i: nat)
    requires Safe(c) && Enabled(c, a) && leader in c.nodes && c.nodes[leader].st.isLeader
    requires var n' := Next(c, a).nodes[leader];
             && n'.st.isLeader && n'.known == c.nodes[leader].known && n'.st.hw > c.nodes[leader].st.hw
             && i < |n'.st.isr| && n'.st.isr[i].broker != leader
    ensures var n' := Next(c, a).nodes[leader];
            Ack(n'.known, n'.st.isr[i].broker, n'.st.hw) in Next(c, a).acks
  {
    var n := c.nodes[leader];
    assert NodeOk(leader, n, c.epochs, c.requests);
    ActionRecords(c, a, i);
  }

  lemma {:induction false} ActionRecords(c: Cluster, a: Action, i: nat)
    requires Enabled(c, a) && c.nodes[a.id].st.isLeader
    requires c.nodes[a.id].known == c.nodes[a.id].st.leaderEpoch && c.nodes[a.id].st.local == a.id
    requires var n' := Next(c, a).nodes[a.id];
             && n'.st.isLeader && n'.known == c.nodes[a.id].known && n'.st.hw > c.nodes[a.id].st.hw
             && i < |n'.st.isr| && n'.st.isr[i].broker != a.id
    ensures var n' := Next(c, a).nodes[a.id];
            Ack(n'.known, n'.st.isr[i].broker, n'.st.hw) in Next(c, a).acks
  {
    var leader, n := a.id, c.nodes[a.id];
    match a
    case Produce(_, data, maxBytes) =>
      LeaderStepRecords(c, leader, AppendRaw(n.st, data, maxBytes).state, i);
    case SetIsr(_, isr) =>
      LeaderStepRecords(c, leader, UpdateLeaderIsr(n.st, n.st.leaderEpoch, isr).state, i);
    case ServeFetch(_, q, _) =>
      LeaderStepRecords(c, leader, FollowerFetch(n.st, q.epoch, q.follower, q.offset).state, i);
    case _ =>
  }

  /**
   Durability: whatever a leader's high watermark has passed is in the log of every ISR
   member the advance counted on, for as long as that member stays in the epoch.
   */
  lemma {:induction false} AckedIsDurable(c: Cluster, a: Ack)
    requires Safe(c) && a in c.acks && a.hw > 0 && a.member in c.nodes && c.nodes[a.member].known == a.epoch
    ensures a.epoch in c.epochs
    ensures UpTo(c.epochs[a.epoch].log.batches, a.hw) <= c.nodes[a.member].st.log.batches
    ensures a.hw <= c.nodes[a.member].st.End()
  {
    var n := c.nodes[a.member];
    assert AckOk(a, c.requests);
    var r :| r in c.requests && r.follower == a.member && r.epoch == a.epoch && r.offset >= a.hw;
    assert RequestOk(r, n, c.epochs) && NodeOk(a.member, n, c.epochs, c.requests);
    assert LeadershipOk(a.epoch, c.epochs[a.epoch], Hist(c.epochs));
    var h := c.epochs[a.epoch].log.batches;
    CountUpToAt(h, a.hw);
    PrefixContiguous(h, 0, CountUpTo(h, a.hw));
    PrefixesMeet(UpTo(h, a.hw), n.st.log.batches, h);
  }

  // ----- Acknowledged requests -----

  /** Assignments only grow, a lost leadership of an epoch is not regained, and acknowledgements stay. */
  lemma {:induction false} StepOrder(c: Cluster, a: Action, id: int)
    requires Enabled(c, a) && id in c.nodes
    ensures id in Next(c, a).nodes && c.acks <= Next(c, a).acks
    ensures var n, n' := c.nodes[id], Next(c, a).nodes[id];
            n.known <= n'.known && (n'.st.isLeader && n'.known == n.known ==> n.st.isLeader)
  {
  }

  lemma {:induction false} RunOrder(c: Cluster, actions: seq<Action>, c': Cluster, id: int)
    requires Reaches(c, actions, c') && id in c.nodes
    ensures id in c'.nodes && c.acks <= c'.acks
    ensures var n, n' := c.nodes[id], c'.nodes[id];
            n.known <= n'.known && (n'.st.isLeader && n'.known == n.known ==> n.st.isLeader)
  {
    if |actions| > 0 {
      var n := |actions| - 1;
      var m := LastStep(c, actions, c');
      RunOrder(c, actions[..n], m, id);
      StepOrder(m, actions[n], id);
    }
  }

  /** Action `k` of a run, taken in `m`, moves the high watermark of the leader `id` past `o`. */
  ghost predicate Passing(c: Cluster, actions: seq<Action>, k: nat, m: Cluster, id: int, o: nat) {
    && k < |actions| && Reaches(c, actions[..k], m) && Enabled(m, actions[k]) && Clean(m, actions[k])
    && id in m.nodes && id in Next(m, actions[k]).nodes
    && var n, n' := m.nodes[id], Next(m, actions[k]).nodes[id];
    n.st.isLeader && n'.st.isLeader && n.known == n'.known && n.st.hw < o <= n'.st.hw
  }

  lemma {:induction false} PassingInPrefix(c: Cluster, actions: seq<Action>, n: nat, k: nat, m: Cluster, id: int,
                                           o: nat)
    requires n <= |actions| && Passing(c, actions[..n], k, m, id, o)
    ensures Passing(c, actions, k, m, id, o) && actions[..n][k] == actions[k]
  {
    assert actions[..n][..k] == actions[..k];
  }

  /**
   Whenever a leader's high watermark gets past an offset during a run, one action of the run
   moved it there, and the advance is recorded for every other member of the ISR at that moment.
   */
  lemma {:induction false} PassedIsCounted(c: Cluster, actions: seq<Action>, c': Cluster, id: int, o: nat)
    returns (k: nat, m: Cluster)
    requires Safe(c) && Reaches(c, actions, c') && id in c.nodes && id in c'.nodes
    requires c.nodes[id].st.isLeader && c'.nodes[id].st.isLeader && c'.nodes[id].known == c.nodes[id].known
    requires c.nodes[id].st.hw < o <= c'.nodes[id].st.hw
    ensures Passing(c, actions, k, m, id, o)
    ensures var n := Next(m, actions[k]).nodes[id];
            && n.known == c.nodes[id].known
            && forall i :: 0 <= i < |n.st.isr| && n.st.isr[i].broker != id ==>
                             Ack(n.known, n.st.isr[i].broker, n.st.hw) in c'.acks
  {
    var n := |actions| - 1;
    m := LastStep(c, actions, c');
    RunOrder(c, actions[..n], m, id);
    StepOrder(m, actions[n], id);
    SafeRun(c, actions[..n], m);
    if o <= m.nodes[id].st.hw {
      k, m := PassedIsCounted(c, actions[..n], m, id, o);
      PassingInPrefix(c, actions, n, k, m, id, o);
    } else {
      k := n;
      var isr := c'.nodes[id].st.isr;
      forall i | 0 <= i < |isr| && isr[i].broker != id
        ensures Ack(c'.nodes[id].known, isr[i].broker, c'.nodes[id].st.hw) in c'.acks
      {
        AdvanceIsRecorded(m, actions[n], id, i);
      }
    }
  }

  /**
   acks=all: a request is told that it succeeded when its leader's high watermark reaches the
   offset it waits for. One action of the run moved it there. What is stored up to that offset is
   then, for the epoch, in the log of every other member of the ISR at that moment. These are all
   records of the request if and only if it has at most 2^32.
   */
  lemma {:induction false} WokenIsDurable(c: Cluster, a: Action, actions: seq<Action>, c': Cluster)
    returns (k: nat, m: Cluster)
    requires Safe(c) && a.Produce? && Enabled(c, a) && Reaches(Next(c, a), actions, c') && a.id in c'.nodes
    requires c'.nodes[a.id].st.isLeader && c'.nodes[a.id].known == c.nodes[a.id].known
    requires RequiredHw(c.nodes[a.id].st.End(), a.data) <= c'.nodes[a.id].st.hw
    ensures var e, o := c.nodes[a.id].known, RequiredHw(c.nodes[a.id].st.End(), a.data);
            && Passing(c, [a] + actions, k, m, a.id, o) && e in c'.epochs
            && Next(m, ([a] + actions)[k]).nodes[a.id].known == e
            && var isr := Next(m, ([a] + actions)[k]).nodes[a.id].st.isr;
            && (forall i :: 0 <= i < |isr| && isr[i].broker != a.id ==> Has(c', isr[i].broker, e, o))
            && (o == Next(c, a).nodes[a.id].st.End() <==> Records(a.data) <= TWO_TO_32)
  {
    var o := RequiredHw(c.nodes[a.id].st.End(), a.data);
    ProduceWaits(c, a);
    ReachesMore(c, [], c, a);
    assert [] + [a] == [a];
    Prepend(c, a, Next(c, a), actions, c');
    SafeRun(c, [a] + actions, c');
    k, m := PassedIsCounted(c, [a] + actions, c', a.id, o);
    var n := Next(m, ([a] + actions)[k]).nodes[a.id];
    assert NodeOk(a.id, c'.nodes[a.id], c'.epochs, c'.requests);
    forall i | 0 <= i < |n.st.isr| && n.st.isr[i].broker != a.id ensures Has(c', n.st.isr[i].broker, n.known, o) {
      AckedMemberHas(c', Ack(n.known, n.st.isr[i].broker, n.st.hw), o);
    }
  }

  /** A broker, while it is in the epoch, has everything its leader stored up to `o`. */
  ghost predicate Has(c: Cluster, id: int, epoch: int, o: nat) {
    id in c.nodes && c.nodes[id].known == epoch ==>
      epoch in c.epochs && UpTo(c.epochs[epoch].log.batches, o) <= c.nodes[id].st.log.batches
  }

  lemma {:induction false} AckedMemberHas(c: Cluster, a: Ack, o: nat)
    requires Safe(c) && a in c.acks && 0 < o <= a.hw
    ensures Has(c, a.member, a.epoch, o)
  {
    if a.member in c.nodes && c.nodes[a.member].known == a.epoch {
      AckedIsDurable(c, a);
      assert LeadershipOk(a.epoch, c.epochs[a.epoch], Hist(c.epochs));
      UpToMonotone(c.epochs[a.epoch].log.batches, o, a.hw);
    }
  }

  /** A request waits for an offset past everything acknowledged before. */
  lemma {:induction false} ProduceWaits(c: Cluster, a: Action)
    requires Safe(c) && a.Produce? && Enabled(c, a)
    ensures var o := RequiredHw(c.nodes[a.id].st.End(), a.data);
            && c.nodes[a.id].st.hw < o
            && (o == Next(c, a).nodes[a.id].st.End() <==> Records(a.data) <= TWO_TO_32)
  {
    var n := c.nodes[a.id];
    assert NodeOk(a.id, n, c.epochs, c.requests);
    RequiredIsLogEnd(n.st.log, a.data, n.st.leaderEpoch, a.maxBytes);
  }

  lemma {:induction false} Behind<T>(a: T, s: seq<T>)
    requires |s| > 0
    ensures ([a] + s[..|s| - 1]) + [s[|s| - 1]] == [a] + s
  {
  }

  lemma {:induction false} Prepend(c: Cluster, a: Action, c1: Cluster, actions: seq<Action>, c': Cluster)
    requires Reaches(c, [a], c1) && Reaches(c1, actions, c')
    ensures Reaches(c, [a] + actions, c')
  {
    if |actions| == 0 {
      assert [a] + actions == [a];
    } else {
      var n := |actions| - 1;
      var m := LastStep(c1, actions, c');
      Prepend(c, a, c1, actions[..n], m);
      Behind(a, actions);
      ReachesMore(c, [a] + actions[..n], m, actions[n]);
    }
  }

  // ----- The conditions on a run are exact -----

  lemma {:induction false} UncleanHear(c: Cluster, a: Action)
    requires Safe(c) && a.Hear? && Enabled(c, a) && !Clean(c, a)
    ensures !Safe(Next(c, a))
  {
    var n, n' := c.nodes[a.id], Next(c, a).nodes[a.id];
    assert NodeOk(a.id, n, c.epochs, c.requests);
    assert LeadershipOk(n.known, c.epochs[n.known], Hist(c.epochs));
    HearNode(n, c.epochs[n.known], a.k, c.epochs, Hist(c.epochs));
    assert !OnTrack(c.epochs, n');
    assert !NodeOk(a.id, n', c.epochs, c.requests);
  }

  lemma {:induction false} UncleanLate(c: Cluster, a: Action)
    requires Safe(c) && a.HearLate? && Enabled(c, a) && !Clean(c, a)
    ensures !Safe(Next(c, a))
  {
    var n, n' := c.nodes[a.id], Next(c, a).nodes[a.id];
    var o := LateOffset(c.epochs[a.epoch], a.asked, a.k, a.was).value;
    var q :| q in c.requests && q.follower == a.id && q.epoch == n.known && q.offset > o;
    assert NodeOk(a.id, n, c.epochs, c.requests);
    CutNode(a.id, n, o, c.epochs, c.requests);
    assert !RequestOk(q, n', c.epochs);
  }

  lemma {:induction false} UncleanDeliver(c: Cluster, a: Action)
    requires Safe(c) && a.Deliver? && Enabled(c, a) && !Clean(c, a)
    ensures !Safe(Next(c, a))
  {
    var n, n', s := c.nodes[a.id], Next(c, a).nodes[a.id], a.response;
    assert NodeOk(a.id, n, c.epochs, c.requests) && ResponseOk(s, c.epochs, c.requests);
    var l := c.epochs[s.epoch];
    assert LeadershipOk(s.epoch, l, Hist(c.epochs));
    var i, j :| 0 <= i <= j <= |l.log.batches| && s.data == l.log.batches[i..j];
    PieceWellFormed(l.log.batches, i, j);
    PartitionRuns.ReplicateStep(n.st, s.data, s.epoch, s.hw);
    assert !Inv(n'.st);
  }

  /** An enabled action keeps the cluster safe if and only if it is clean. */
  lemma {:induction false} SafeIffClean(c: Cluster, a: Action)
    requires Safe(c) && Enabled(c, a)
    ensures Safe(Next(c, a)) <==> Clean(c, a)
  {
    if Clean(c, a) {
      ActionKeepsSafe(c, a);
    } else if a.Hear? {
      UncleanHear(c, a);
    } else if a.HearLate? {
      UncleanLate(c, a);
    } else {
      UncleanDeliver(c, a);
    }
  }
}
