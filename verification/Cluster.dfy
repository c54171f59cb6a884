/**
 One partition replicated over any number of brokers, through any number of elections.

 Every broker runs the partition operations of `PartitionModel`; fetch requests and
 responses may be delayed, reordered, duplicated or lost. An epoch answer may be older than
 the leader's current log, and may even come from the leader of an earlier epoch: a broker
 cuts its log by it although it has been assigned a new leader and has fetched since. For each leader epoch the cluster
 records what its only leader ever stored; for each advance of a leader's high watermark it
 records the ISR members that the advance relied on.
 */
module Cluster {
  import opened Batches
  import opened EpochCache
  import opened EpochMirror
  import opened Reconciliation
  import opened PartitionModel

  /** Where a follower stands with the leader of its current epoch. */
  datatype Phase =
    | Unreconciled
    | Asking(epoch: int, seen: nat)   // waits for an answer; the leader had `seen` batches when asked
    | Fetching

  /** A broker's partition and the latest leader epoch it was assigned (-1 before the first). */
  datatype Node = Node(st: State, known: int, phase: Phase)

  /** Everything the leader of one epoch stored, and how many batches it had when elected. */
  datatype Leadership = Leadership(leader: int, log: ReplicaLog, base: nat)

  datatype FetchRequest = FetchRequest(follower: int, epoch: int, offset: nat)

  datatype FetchResponse = FetchResponse(follower: int, epoch: int, offset: nat, data: seq<Batch>, hw: nat)

  /** The leader of `epoch` moved its high watermark to `hw`, counting on `member`. */
  datatype Ack = Ack(epoch: int, member: int, hw: nat)

  datatype Cluster = Cluster(
    nodes: map<int, Node>,
    epochs: map<int, Leadership>,
    requests: set<FetchRequest>,
    responses: set<FetchResponse>,
    acks: set<Ack>)

  datatype Action =
    | Elect(id: int, epoch: int, isr: seq<int>)
    | Follow(id: int, epoch: int, leader: int)
    | Unassign(id: int)
    | Forget(id: int)
    | Produce(id: int, data: seq<Batch>, maxBytes: nat)
    | SetIsr(id: int, isr: seq<int>)
    | Ask(id: int)
    | Hear(id: int, k: nat)
    | HearLate(id: int, epoch: int, asked: int, k: nat, was: ReplicaLog)
    | SendFetch(id: int)
    | ServeFetch(id: int, request: FetchRequest, count: nat)
    | Deliver(id: int, response: FetchResponse)

  function Hist(epochs: map<int, Leadership>): Histories {
    map e | e in epochs :: epochs[e].log.batches
  }

  /** The log of the leader of `e` when it had `k` batches. */
  function Snapshot(l: Leadership, k: nat): ReplicaLog
    requires k <= |l.log.batches|
  {
    ReplicaLog(l.log.batches[..k], l.log.cache)
  }

  function SetState(c: Cluster, id: int, st: State): Cluster
    requires id in c.nodes
  {
    c.(nodes := c.nodes[id := c.nodes[id].(st := st)])
  }

  /** The members an advance from `before` to `after` counted on. */
  function NewAcks(before: State, after: State): set<Ack> {
    if after.hw > before.hw then
      set i | 0 <= i < |after.isr| && after.isr[i].broker != after.local
          :: Ack(after.leaderEpoch, after.isr[i].broker, after.hw)
    else {}
  }

  /** A leader step: its new state, and the acknowledgements of a high-watermark advance. */
  function LeaderStep(c: Cluster, id: int, after: State): Cluster
    requires id in c.nodes
  {
    SetState(c, id, after).(acks := c.acks + NewAcks(c.nodes[id].st, after))
  }

  function HeardAnswer(n: Node, l: Leadership, k: nat): Answer
    requires n.phase.Asking? && k <= |l.log.batches|
  {
    AnswerOf(Snapshot(l, k), n.phase.epoch)
  }

  /** One epoch round of a follower, against the leader's log when it had `k` batches. */
  function HearRound(n: Node, l: Leadership, k: nat): RoundResult
    requires n.phase.Asking? && k <= |l.log.batches|
  {
    Round(n.st.log, HeardAnswer(n, l, k))
  }

  /**
   Where an answer of an earlier leader, to whatever it was asked, cuts the log, if anywhere:
   the offset is computed from the log as it was when the answer came.
   */
  function LateOffset(l: Leadership, asked: int, k: nat, was: ReplicaLog): Option<nat>
    requires k <= |l.log.batches|
  {
    var a := AnswerOf(Snapshot(l, k), asked);
    if a.Failed? || a.epoch < 0 || a.end < 0 then None
    else Some(TruncationOffset(was, EndOffsetFor(was.cache, a.epoch, was.End()), a.end))
  }

  predicate Enabled(c: Cluster, a: Action) {
    a.id in c.nodes &&
    var n := c.nodes[a.id];
    match a
    case Elect(id, epoch, isr) =>
      // the controller names one leader per epoch, and a broker sees its assignments in order
      epoch >= 0 && epoch > n.known && epoch !in c.epochs
      && MakeLeader(n.st, epoch, isr, n.st.hw).error.None?
    case Follow(id, epoch, leader) =>
      epoch >= 0 && epoch >= n.known && leader >= 0 && leader != id
      && (epoch in c.epochs ==> c.epochs[epoch].leader != id)
    case Unassign(id) => true
    case Forget(id) => true
    case Produce(id, data, maxBytes) =>
      n.st.isLeader && WellFormedData(data) && AppendRaw(n.st, data, maxBytes).error.None?
    case SetIsr(id, isr) => n.st.isLeader
    case Ask(id) => !n.st.isLeader && n.st.leaderId >= 0 && n.phase == Unreconciled
    case Hear(id, k) =>
      n.phase.Asking? && n.known in c.epochs
      && n.phase.seen <= k && c.epochs[n.known].base <= k <= |c.epochs[n.known].log.batches|
    case HearLate(id, epoch, asked, k, was) =>
      // a leader refuses to truncate; the worker of an earlier leader checks nothing else
      !n.st.isLeader && epoch < n.known && epoch in c.epochs
      && c.epochs[epoch].base <= k <= |c.epochs[epoch].log.batches|
    case SendFetch(id) => n.phase == Fetching
    case ServeFetch(id, request, count) =>
      request in c.requests && FollowerFetch(n.st, request.epoch, request.follower, request.offset).error.None?
    case Deliver(id, response) =>
      response in c.responses && response.follower == id
      && !n.phase.Asking? // the worker delivers before it reconciles again
      && n.known == response.epoch && n.st.End() == response.offset
  }

  function Next(c: Cluster, a: Action): Cluster
    requires Enabled(c, a)
  {
    var n := c.nodes[a.id];
    match a
    case Elect(id, epoch, isr) =>
      var st := MakeLeader(n.st, epoch, isr, n.st.hw).state;
      c.(nodes := c.nodes[id := Node(st, epoch, Unreconciled)],
         epochs := c.epochs[epoch := Leadership(id, st.log, |st.log.batches|)])
    case Follow(id, epoch, leader) =>
      c.(nodes := c.nodes[id := Node(MakeFollower(n.st, epoch, leader), epoch,
                                     if epoch == n.known then n.phase else Unreconciled)])
    case Unassign(id) =>
      c.(nodes := c.nodes[id := Node(MakeUnassigned(n.st), n.known, Unreconciled)])
    case Forget(id) =>
      c.(nodes := c.nodes[id := n.(phase := Unreconciled)])
    case Produce(id, data, maxBytes) =>
      var st := AppendRaw(n.st, data, maxBytes).state;
      var c' := LeaderStep(c, id, st);
      if n.known in c.epochs
      then c'.(epochs := c.epochs[n.known := c.epochs[n.known].(log := st.log)])
      else c'
    case SetIsr(id, isr) =>
      LeaderStep(c, id, UpdateLeaderIsr(n.st, n.st.leaderEpoch, isr).state)
    case Ask(id) =>
      var phase := match Latest(n.st.log.cache)
                   case None => Fetching
                   case Some(e) => Asking(e, if n.known in c.epochs then |c.epochs[n.known].log.batches| else 0);
      c.(nodes := c.nodes[id := n.(phase := phase)])
    case Hear(id, k) =>
      var l := c.epochs[n.known];
      var r := HearRound(n, l, k);
      var phase := match r.outcome
                   case Rejected => Unreconciled
                   case Settled => Fetching
                   case Unknown => Fetching
                   case Continue(e) => Asking(e, |l.log.batches|);
      c.(nodes := c.nodes[id := Node(Trimmed(n.st, r.log), n.known, phase)])
    case HearLate(id, epoch, asked, k, was) =>
      var o := LateOffset(c.epochs[epoch], asked, k, was);
      if o.None? then c else SetState(c, id, TruncateTo(n.st, o.value).state)
    case SendFetch(id) =>
      c.(requests := c.requests + {FetchRequest(id, n.known, n.st.End())})
    case ServeFetch(id, request, count) =>
      var st := FollowerFetch(n.st, request.epoch, request.follower, request.offset).state;
      var rest := st.log.batches[CountUpTo(st.log.batches, request.offset)..];
      var data := rest[..Min(count, |rest|)];
      LeaderStep(c, id, st).(
      responses := c.responses + {FetchResponse(request.follower, request.epoch, request.offset, data, st.hw)})
    case Deliver(id, response) =>
      SetState(c, id, AppendFromLeader(n.st, response.data, response.epoch, response.hw).state)
  }

  /**
   The three conditions on a run. A reconciliation that ends on an epoch the follower does not
   know has nothing left, or, if a late answer cut the follower meanwhile, leaves alone a log
   that the leader confirms. A late answer cuts nothing the follower requested in its current
   epoch. A replica append starts at an epoch that the follower's cache can take.
   */
  ghost predicate Clean(c: Cluster, a: Action)
    requires Enabled(c, a)
  {
    var n := c.nodes[a.id];
    match a
    case Hear(id, k) =>
      var l := c.epochs[n.known];
      var end := HeardAnswer(n, l, k).end;
      HearRound(n, l, k).outcome == Unknown ==>
        if end <= n.st.End() then end == 0 else Confirmed(n.st.log, Snapshot(l, k))
    case HearLate(id, epoch, asked, k, was) =>
      var o := LateOffset(c.epochs[epoch], asked, k, was);
      o.Some? && IsBoundary(n.st.log.batches, o.value) ==>
        forall q :: q in c.requests && q.follower == id && q.epoch == n.known ==> q.offset <= o.value
    case Deliver(id, response) =>
      AppendFromLeader(n.st, response.data, response.epoch, response.hw).error.None? ==>
        var added := Added(n.st.log, response.data, response.epoch);
        |added| > 0 ==> FirstEpochFits(n.st.log.cache, n.st.log.batches, added[0].epoch)
    case _ => true
  }

  // ----- Invariant -----

  /** The node's log is a prefix of what the leader of its current epoch stored. */
  ghost predicate OnTrack(epochs: map<int, Leadership>, n: Node) {
    n.st.log.batches == []
    || (n.known in epochs && n.st.log.batches <= epochs[n.known].log.batches)
  }

  ghost predicate LeadershipOk(e: int, l: Leadership, hist: Histories) {
    && e >= 0
    && l.base <= |l.log.batches|
    && IsLog(l.log.batches)
    && Mirrors(l.log.cache, l.log.batches[..l.base])
    && Latest(l.log.cache) == Some(e)
    && (forall i :: 0 <= i < l.base ==> l.log.batches[i].epoch < e)
    && (forall i :: l.base <= i < |l.log.batches| ==> l.log.batches[i].epoch == e)
    && Grounded(l.log, hist)
  }

  /** A recorded ISR offset was sent by the member itself, in this epoch. */
  ghost predicate IsrRecorded(st: State, requests: set<FetchRequest>) {
    forall i :: 0 <= i < |st.isr| && st.isr[i].broker != st.local ==>
                  st.isr[i].leo == 0
                  || FetchRequest(st.isr[i].broker, st.leaderEpoch, st.isr[i].leo) in requests
  }

  ghost predicate LeaderOk(id: int, n: Node, epochs: map<int, Leadership>, requests: set<FetchRequest>) {
    n.st.isLeader ==>
      && n.known in epochs && epochs[n.known].leader == id
      && n.st.log == epochs[n.known].log
      && IsrRecorded(n.st, requests)
      && n.phase == Unreconciled
  }

  ghost predicate PhaseOk(n: Node, epochs: map<int, Leadership>) {
    && (n.phase == Fetching ==> OnTrack(epochs, n))
    && (n.phase.Asking? ==> EpochsAtMost(n.st.log.batches, n.phase.epoch) && QuestionOk(n.known, n.phase, epochs))
  }

  /** Only once its leader has written does a follower ask for its current epoch. */
  ghost predicate QuestionOk(known: int, phase: Phase, epochs: map<int, Leadership>)
    requires phase.Asking?
  {
    && phase.epoch <= known
    && (phase.epoch == known ==> known in epochs && epochs[known].base < phase.seen)
  }

  ghost predicate Leads(id: int, e: int, epochs: map<int, Leadership>) { e in epochs && epochs[e].leader == id }

  /** No cached epoch is later than `known`; `known` itself is cached with batches, or by its own leader. */
  ghost predicate Recent(r: ReplicaLog, known: int, led: bool) {
    |r.cache| > 0 ==>
      && r.cache[|r.cache| - 1].epoch <= known
      && (r.cache[|r.cache| - 1].epoch == known && !led ==>
            |r.batches| > 0 && r.batches[|r.batches| - 1].epoch == known)
  }

  ghost predicate NodeOk(id: int, n: Node, epochs: map<int, Leadership>, requests: set<FetchRequest>) {
    && Inv(n.st) && n.st.local == id
    && (n.known >= 0 ==> n.st.leaderEpoch == n.known)
    && (n.known < 0 ==> !n.st.isLeader && n.st.leaderId < 0 && n.phase == Unreconciled)
    && Grounded(n.st.log, Hist(epochs)) && Recent(n.st.log, n.known, Leads(id, n.known, epochs))
    && (Leads(id, n.known, epochs) ==> n.st.isLeader || n.st.leaderId < 0)
    && LeaderOk(id, n, epochs, requests)
    && PhaseOk(n, epochs)
  }

  /** A follower that has fetched in its current epoch keeps everything up to that offset. */
  ghost predicate RequestOk(r: FetchRequest, n: Node, epochs: map<int, Leadership>) {
    && 0 <= r.epoch <= n.known
    && (r.epoch == n.known ==>
          && OnTrack(epochs, n)
          && r.offset <= n.st.End()
          && (n.phase.Asking? ==> |n.st.log.batches| <= n.phase.seen))
  }

  /** A response answers a request with a piece of the log of its epoch. */
  ghost predicate ResponseOk(s: FetchResponse, epochs: map<int, Leadership>, requests: set<FetchRequest>) {
    && s.epoch in epochs && FetchRequest(s.follower, s.epoch, s.offset) in requests
    && (exists i, j :: 0 <= i <= j <= |epochs[s.epoch].log.batches| && s.data == epochs[s.epoch].log.batches[i..j])
  }

  ghost predicate AckOk(a: Ack, requests: set<FetchRequest>) {
    exists r :: r in requests && r.follower == a.member && r.epoch == a.epoch && r.offset >= a.hw
  }

  ghost predicate Safe(c: Cluster) {
    && (forall id :: id in c.nodes ==> NodeOk(id, c.nodes[id], c.epochs, c.requests))
    && (forall e :: e in c.epochs ==> LeadershipOk(e, c.epochs[e], Hist(c.epochs)))
    && (forall r :: r in c.requests ==> r.follower in c.nodes && RequestOk(r, c.nodes[r.follower], c.epochs))
    && (forall s :: s in c.responses ==> ResponseOk(s, c.epochs, c.requests))
    && (forall a :: a in c.acks ==> AckOk(a, c.requests))
  }
}
