/**
 Runs from empty brokers. Three are clean up to a last step in which a condition of `Clean`
 fails: the conditions are about states that the brokers do reach. One is clean throughout, and
 wakes a request before its records are replicated.
 */
module Incidents {
  import opened Batches
  import opened EpochCache
  import opened EpochMirror
  import opened Reconciliation
  import opened PartitionModel
  import opened Cluster
  import opened ClusterSafety
  import opened Divergence

  /** A batch as a client sends it. */
  const SENT: Batch := Single(0, 0)

  function Serving(id: int, log: ReplicaLog, hw: nat, epoch: int, isr: seq<IsrEntry>): Node {
    Node(State(id, log, hw, true, epoch, id, isr, false), epoch, Unreconciled)
  }

  function Following(id: int, log: ReplicaLog, hw: nat, epoch: int, leader: int, phase: Phase): Node {
    Node(State(id, log, hw, false, epoch, leader, [], false), epoch, phase)
  }

  function Idle(id: int): Node { Node(State(id, NOTHING, 0, false, 0, -1, [], false), -1, Unreconciled) }

  const NOTHING: ReplicaLog := ReplicaLog([], [])

  function Start(): Cluster {
    Cluster(map[0 := Idle(0), 1 := Idle(1), 2 := Idle(2)], map[], {}, {}, {})
  }

  /** A clean step. */
  ghost predicate Steps(c: Cluster, a: Action, c': Cluster) { Enabled(c, a) && Clean(c, a) && c' == Next(c, a) }

  ghost predicate ReachableFrom(from: Cluster, c: Cluster) { exists actions :: Reaches(from, actions, c) }

  ghost predicate Reachable(c: Cluster) { ReachableFrom(Start(), c) }

  lemma {:induction false} Then(m: Cluster, a: Action, c: Cluster)
    requires Reachable(m) && Steps(m, a, c)
    ensures Reachable(c)
  {
    Onward(Start(), m, a, c);
  }

  lemma {:induction false} Onward(from: Cluster, m: Cluster, a: Action, c: Cluster)
    requires ReachableFrom(from, m) && Steps(m, a, c)
    ensures ReachableFrom(from, c)
  {
    var actions :| Reaches(from, actions, m);
    ReachesMore(from, actions, m, a);
  }

  // ----- What single actions do -----

  lemma {:induction false} Elects(c: Cluster, id: int, epoch: int, ids: seq<int>, log: ReplicaLog, isr: seq<IsrEntry>)
    requires id in c.nodes && 0 <= epoch && c.nodes[id].known < epoch && epoch !in c.epochs && !c.nodes[id].st.closed
    requires c.nodes[id].st.local == id && isr == FreshIsr(ids)
    requires var r := c.nodes[id].st.log;
             && (|r.cache| > 0 ==> r.cache[|r.cache| - 1].epoch <= epoch)
             && log == ReplicaLog(r.batches, Assigned(r.cache, epoch, r.End()))
    ensures Steps(c, Elect(id, epoch, ids),
                  c.(nodes := c.nodes[id := Serving(id, log, c.nodes[id].st.hw, epoch, isr)],
                     epochs := c.epochs[epoch := Leadership(id, log, |log.batches|)]))
  {
  }

  /** A leader whose ISR has not caught up writes the batches of one request. */
  lemma {:induction false} ProducesRun(c: Cluster, id: int, data: seq<Batch>, maxBytes: nat, log: ReplicaLog)
    requires id in c.nodes && c.nodes[id].st.isLeader && !c.nodes[id].st.closed && c.nodes[id].known in c.epochs
    requires |data| > 0 && WellFormedData(data) && !AnyTooLarge(data, maxBytes)
    requires var n := c.nodes[id];
             && n.st.End() + Records(data) <= MAX_OFFSET
             && log == n.st.log.(batches := n.st.log.batches + Stamp(data, n.st.End(), n.st.leaderEpoch))
             && (|n.st.isr| == 0 || IsrMin(n.st.isr, n.st.local, log.End()) <= n.st.hw)
    ensures var n := c.nodes[id];
            Steps(c, Produce(id, data, maxBytes),
                  c.(nodes := c.nodes[id := n.(st := n.st.(log := log))],
                     epochs := c.epochs[n.known := c.epochs[n.known].(log := log)]))
  {
    assert c.acks + {} == c.acks;
  }

  /** The same for one batch. */
  lemma {:induction false} Produces(c: Cluster, id: int, b: Batch, log: ReplicaLog)
    requires id in c.nodes && c.nodes[id].st.isLeader && !c.nodes[id].st.closed && c.nodes[id].known in c.epochs
    requires var n := c.nodes[id];
             && b == SENT.(base := n.st.End(), epoch := n.st.leaderEpoch) && n.st.End() + 1 <= MAX_OFFSET
             && log == n.st.log.(batches := n.st.log.batches + [b])
             && (|n.st.isr| == 0 || IsrMin(n.st.isr, n.st.local, log.End()) <= n.st.hw)
    ensures var n := c.nodes[id];
            Steps(c, Produce(id, [SENT], 1000),
                  c.(nodes := c.nodes[id := n.(st := n.st.(log := log))],
                     epochs := c.epochs[n.known := c.epochs[n.known].(log := log)]))
  {
    assert [SENT][..0] == [];
    assert Stamp([SENT], c.nodes[id].st.End(), c.nodes[id].st.leaderEpoch) == [b];
    ProducesRun(c, id, [SENT], 1000, log);
  }

  lemma {:induction false} Serves(c: Cluster, id: int, q: FetchRequest, count: nat, isr: seq<IsrEntry>, hw: nat,
                                  data: seq<Batch>)
    requires id in c.nodes && c.nodes[id].st.isLeader && !c.nodes[id].st.closed && q in c.requests
    requires var n := c.nodes[id];
             && q.epoch == n.st.leaderEpoch && q.offset <= n.st.End()
               && isr == RecordLeo(n.st.isr, q.follower, q.offset)
             && n.st.(isr := isr, hw := hw) == AdvanceHw(n.st.(isr := isr))
             && var rest := n.st.log.batches[CountUpTo(n.st.log.batches, q.offset)..];
             data == rest[..Min(count, |rest|)]
    ensures var n := c.nodes[id];
            var st := n.st.(isr := isr, hw := hw);
            Steps(c, ServeFetch(id, q, count),
                  c.(nodes := c.nodes[id := n.(st := st)],
                     responses := c.responses + {FetchResponse(q.follower, q.epoch, q.offset, data, hw)},
                     acks := c.acks + NewAcks(n.st, st)))
  {
  }

  /** A replica append of one batch that follows the log. */
  lemma {:induction false} OneMore(r: ReplicaLog, b: Batch, epoch: int)
    requires b.base == r.End() && 0 <= b.epoch <= epoch
    ensures Added(r, [b], epoch) == [b]
    ensures AppendReplica(r, [b], epoch)
         == (ReplicaLog(r.batches + [b], Assigned(r.cache, b.epoch, b.base)), None)
  {
    assert [b][..0] == [] && [b][1..] == [] && Accepted([b], epoch) == [b];
    SingleRun(b);
    AssignAllSnoc(r.cache, [], Entry(b.epoch, b.base));
    assert [] + [Entry(b.epoch, b.base)] == [Entry(b.epoch, b.base)];
  }

  /** A follower of the epoch receives the batch after its log. */
  ghost predicate Receives(c: Cluster, id: int, s: FetchResponse, b: Batch) {
    && id in c.nodes && s in c.responses && s.follower == id && s.data == [b]
    && var n := c.nodes[id];
    && !n.phase.Asking? && n.known == s.epoch == n.st.leaderEpoch && n.st.End() == s.offset == b.base
    && !n.st.isLeader && !n.st.closed && n.st.leaderId >= 0 && n.st.leaderId != n.st.local
    && 0 <= b.epoch <= s.epoch
  }

  lemma {:induction false} Delivers(c: Cluster, id: int, s: FetchResponse, b: Batch, log: ReplicaLog)
    requires Receives(c, id, s, b) && s.hw <= c.nodes[id].st.hw
    requires var r := c.nodes[id].st.log;
             && FirstEpochFits(r.cache, r.batches, b.epoch)
             && log == ReplicaLog(r.batches + [b], Assigned(r.cache, b.epoch, b.base))
    ensures var n := c.nodes[id];
            Steps(c, Deliver(id, s), c.(nodes := c.nodes[id := n.(st := n.st.(log := log))]))
  {
    OneMore(c.nodes[id].st.log, b, s.epoch);
  }

  /** The same when the cache cannot take the epoch of the batch. */
  lemma {:induction false} Misfits(c: Cluster, id: int, s: FetchResponse, b: Batch)
    requires Receives(c, id, s, b) && !FirstEpochFits(c.nodes[id].st.log.cache, c.nodes[id].st.log.batches, b.epoch)
    ensures Enabled(c, Deliver(id, s)) && !Clean(c, Deliver(id, s))
    ensures Next(c, Deliver(id, s)).nodes[id].st.log.cache == Assigned(c.nodes[id].st.log.cache, b.epoch, b.base)
  {
    OneMore(c.nodes[id].st.log, b, s.epoch);
  }

  lemma {:induction false} Follows(c: Cluster, id: int, epoch: int, leader: int)
    requires id in c.nodes && c.nodes[id].known < epoch && 0 <= epoch && 0 <= leader != id
    requires epoch in c.epochs ==> c.epochs[epoch].leader != id
    requires c.nodes[id].st.local == id && !c.nodes[id].st.closed
    ensures var n := c.nodes[id];
            Steps(c, Follow(id, epoch, leader),
                  c.(nodes := c.nodes[id := Following(id, n.st.log, n.st.hw, epoch, leader, Unreconciled)]))
  {
  }

  lemma {:induction false} Asks(c: Cluster, id: int, phase: Phase)
    requires id in c.nodes && !c.nodes[id].st.isLeader && c.nodes[id].st.leaderId >= 0
    requires c.nodes[id].phase == Unreconciled
    requires var n := c.nodes[id];
             if |n.st.log.cache| == 0 then phase == Fetching
             else n.known in c.epochs
                  && phase == Asking(n.st.log.cache[|n.st.log.cache| - 1].epoch, |c.epochs[n.known].log.batches|)
    ensures Steps(c, Ask(id), c.(nodes := c.nodes[id := c.nodes[id].(phase := phase)]))
  {
  }

  lemma {:induction false} Fetches(c: Cluster, id: int, q: FetchRequest)
    requires id in c.nodes && c.nodes[id].phase == Fetching
             && q == FetchRequest(id, c.nodes[id].known, c.nodes[id].st.End())
    ensures Steps(c, SendFetch(id), c.(requests := c.requests + {q}))
  {
  }

  /** A follower hears an answer to a question it still has an epoch for. */
  lemma {:induction false} Hears(c: Cluster, id: int, k: nat, a: Answer, r: RoundResult, phase: Phase)
    requires id in c.nodes && c.nodes[id].phase.Asking? && c.nodes[id].known in c.epochs
    requires var n, l := c.nodes[id], c.epochs[c.nodes[id].known];
             && n.phase.seen <= k && l.base <= k <= |l.log.batches| && a == HeardAnswer(n, l, k)
             && r == Round(n.st.log, a) && n.st.hw <= r.log.End()
             && (if r.outcome == Settled then phase == Fetching
                 else r.outcome.Continue? && phase == Asking(r.outcome.epoch, |l.log.batches|))
    ensures var n := c.nodes[id];
            Steps(c, Hear(id, k), c.(nodes := c.nodes[id := Node(n.st.(log := r.log), n.known, phase)]))
  {
  }

  /** A follower hears an answer, within its log, for an epoch that it does not have any more. */
  lemma {:induction false} HearsUnknown(c: Cluster, id: int, k: nat, a: Answer, r: RoundResult)
    requires id in c.nodes && c.nodes[id].phase.Asking? && c.nodes[id].known in c.epochs
    requires var n, l := c.nodes[id], c.epochs[c.nodes[id].known];
             && n.phase.seen <= k && l.base <= k <= |l.log.batches| && a == HeardAnswer(n, l, k)
             && r == Round(n.st.log, a) && r.outcome == Unknown && a.Reply? && 0 < a.end <= n.st.End()
    ensures Enabled(c, Hear(id, k)) && !Clean(c, Hear(id, k))
    ensures var n := Next(c, Hear(id, k)).nodes[id]; n.phase == Fetching && n.st.log == r.log
  {
  }

  // ----- A follower copies its leader -----

  const EMPTY1: ReplicaLog := ReplicaLog([], [Entry(1, 0)])

  const ONE: ReplicaLog := ReplicaLog([Single(0, 1)], [Entry(1, 0)])

  const BOTH: seq<IsrEntry> := [IsrEntry(0, 0), IsrEntry(1, 0)]

  const CAUGHT_UP: seq<IsrEntry> := [IsrEntry(0, 0), IsrEntry(1, 1)]

  const FETCH0: FetchRequest := FetchRequest(1, 1, 0)

  const DATA0: FetchResponse := FetchResponse(1, 1, 0, [Single(0, 1)], 0)

  function Elected1(): Cluster {
    Start().(nodes := Start().nodes[0 := Serving(0, EMPTY1, 0, 1, BOTH)], epochs := map[1 := Leadership(0, EMPTY1, 0)])
  }

  lemma {:induction false} Elects1()
    ensures Reachable(Elected1())
  {
    assert Reaches(Start(), [], Start());
    assert Assigned([], 1, 0) == [Entry(1, 0)] && FreshIsr([0, 1]) == BOTH;
    Elects(Start(), 0, 1, [0, 1], EMPTY1, BOTH);
    Then(Start(), Elect(0, 1, [0, 1]), Elected1());
  }

  function Written1(): Cluster {
    Elected1().(nodes := Elected1().nodes[0 := Serving(0, ONE, 0, 1, BOTH)],
                epochs := Elected1().epochs[1 := Leadership(0, ONE, 0)])
  }

  lemma {:induction false} IsrFacts()
    ensures RecordLeo(BOTH, 1, 0) == BOTH && RecordLeo(BOTH, 1, 1) == CAUGHT_UP
    ensures IsrMin(BOTH, 0, 1) == 0 && IsrMin(BOTH, 0, 2) == 0
    ensures IsrMin(CAUGHT_UP, 0, 1) == 1 && IsrMin(CAUGHT_UP, 0, 2) == 1
  {
    assert BOTH[1..] == [IsrEntry(1, 0)] && CAUGHT_UP[1..] == [IsrEntry(1, 1)];
  }

  lemma {:induction false} Writes1()
    ensures Reachable(Written1())
  {
    Elects1();
    IsrFacts();
    Produces(Elected1(), 0, Single(0, 1), ONE);
    Then(Elected1(), Produce(0, [SENT], 1000), Written1());
  }

  function Ready1(): Cluster {
    Written1().(nodes := Written1().nodes[1 := Following(1, NOTHING, 0, 1, 0, Fetching)])
  }

  lemma {:induction false} Readies1()
    ensures Reachable(Ready1())
  {
    Writes1();
    var c := Written1();
    Follows(c, 1, 1, 0);
    var c1 := c.(nodes := c.nodes[1 := Following(1, NOTHING, 0, 1, 0, Unreconciled)]);
    Then(c, Follow(1, 1, 0), c1);
    Asks(c1, 1, Fetching);
    Then(c1, Ask(1), Ready1());
  }

  function Fetched1(): Cluster { Ready1().(requests := {FETCH0}) }

  lemma {:induction false} Fetches1()
    ensures Reachable(Fetched1())
  {
    Readies1();
    Fetches(Ready1(), 1, FETCH0);
    Then(Ready1(), SendFetch(1), Fetched1());
  }

  function Served1(): Cluster { Fetched1().(responses := {DATA0}) }

  lemma {:induction false} Serves1()
    ensures Reachable(Served1())
  {
    Fetches1();
    var c := Fetched1();
    IsrFacts();
    assert ONE.batches[0..][..1] == [Single(0, 1)];
    Serves(c, 0, FETCH0, 1, BOTH, 0, [Single(0, 1)]);
    assert c.nodes[0 := c.nodes[0]] == c.nodes;
    Then(c, ServeFetch(0, FETCH0, 1), Served1());
  }

  /** The leader of epoch 1 and its follower have one batch. */
  function Copied(): Cluster {
    Served1().(nodes := Served1().nodes[1 := Following(1, ONE, 0, 1, 0, Fetching)])
  }

  lemma {:induction false} Copies()
    ensures Reachable(Copied())
  {
    Serves1();
    assert Assigned([], 1, 0) == [Entry(1, 0)];
    Delivers(Served1(), 1, DATA0, Single(0, 1), ONE);
    Then(Served1(), Deliver(1, DATA0), Copied());
  }

  // ----- The answer of an earlier leader -----

  const EMPTY2: ReplicaLog := ReplicaLog([], [Entry(2, 0)])

  const ONE3: ReplicaLog := ReplicaLog([Single(0, 1)], [Entry(1, 0), Entry(3, 1)])

  const FETCH1: FetchRequest := FetchRequest(1, 3, 1)

  /** Broker 2, with an empty log, leads epoch 2. */
  function Elected2(): Cluster {
    Copied().(nodes := Copied().nodes[2 := Serving(2, EMPTY2, 0, 2, [])],
              epochs := Copied().epochs[2 := Leadership(2, EMPTY2, 0)])
  }

  lemma {:induction false} Elects2()
    ensures Reachable(Elected2())
  {
    Copies();
    assert Assigned([], 2, 0) == [Entry(2, 0)];
    Elects(Copied(), 2, 2, [], EMPTY2, []);
    Then(Copied(), Elect(2, 2, []), Elected2());
  }

  /** A follower that follows a new leader and asks it for an epoch. */
  lemma {:induction false} FollowsAndAsks(c: Cluster, id: int, epoch: int, leader: int, phase: Phase, c': Cluster)
    requires Reachable(c) && id in c.nodes && c.nodes[id].known < epoch && 0 <= epoch && 0 <= leader != id
    requires epoch in c.epochs && c.epochs[epoch].leader != id
    requires c.nodes[id].st.local == id && !c.nodes[id].st.closed && |c.nodes[id].st.log.cache| > 0
    requires var n := c.nodes[id];
             && phase == Asking(n.st.log.cache[|n.st.log.cache| - 1].epoch, |c.epochs[epoch].log.batches|)
             && c' == c.(nodes := c.nodes[id := Following(id, n.st.log, n.st.hw, epoch, leader, phase)])
    ensures Reachable(c')
  {
    var n := c.nodes[id];
    Follows(c, id, epoch, leader);
    var c1 := c.(nodes := c.nodes[id := Following(id, n.st.log, n.st.hw, epoch, leader, Unreconciled)]);
    Then(c, Follow(id, epoch, leader), c1);
    Asks(c1, id, phase);
    Then(c1, Ask(id), c');
  }

  /** Broker 1 asks it where epoch 1 ends. */
  function Asked2(): Cluster {
    Elected2().(nodes := Elected2().nodes[1 := Following(1, ONE, 0, 2, 2, Asking(1, 0))])
  }

  lemma {:induction false} Asks2()
    ensures Reachable(Asked2())
  {
    Elects2();
    FollowsAndAsks(Elected2(), 1, 2, 2, Asking(1, 0), Asked2());
  }

  /** Broker 0 leads again, in epoch 3. */
  function Elected3(): Cluster {
    Asked2().(nodes := Asked2().nodes[0 := Serving(0, ONE3, 0, 3, BOTH)],
              epochs := Asked2().epochs[3 := Leadership(0, ONE3, 1)])
  }

  lemma {:induction false} Elects3()
    ensures Reachable(Elected3())
  {
    Asks2();
    AssignedIs([Entry(1, 0)], 3, 1, 1);
    assert [Entry(1, 0)][..1] == [Entry(1, 0)] && FreshIsr([0, 1]) == BOTH;
    Elects(Asked2(), 0, 3, [0, 1], ONE3, BOTH);
    Then(Asked2(), Elect(0, 3, [0, 1]), Elected3());
  }

  /** Broker 1 asks it instead. */
  function Asked3(): Cluster {
    Elected3().(nodes := Elected3().nodes[1 := Following(1, ONE, 0, 3, 0, Asking(1, 1))])
  }

  lemma {:induction false} Asks3()
    ensures Reachable(Asked3())
  {
    Elects3();
    FollowsAndAsks(Elected3(), 1, 3, 0, Asking(1, 1), Asked3());
  }

  /** Broker 1 has reconciled with epoch 3 and asks for more, having the batch. */
  function Fetched3(): Cluster {
    Asked3().(nodes := Asked3().nodes[1 := Following(1, ONE, 0, 3, 0, Fetching)], requests := {FETCH0, FETCH1})
  }

  /** The leader of epoch 3 counts on that. */
  function Acked3(): Cluster {
    Fetched3().(nodes := Fetched3().nodes[0 := Serving(0, ONE3, 1, 3, CAUGHT_UP)],
                responses := {DATA0, FetchResponse(1, 3, 1, [], 1)},
                acks := {Ack(3, 1, 1)})
  }

  lemma {:induction false} Round3()
    ensures AnswerOf(ONE3, 1) == Reply(1, 1) && Round(ONE, Reply(1, 1)) == RoundResult(ONE, Settled)
    ensures ONE3.batches[..1] == ONE3.batches
  {
    EntryAnswers(ONE3, 0);
    EntryAnswers(ONE, 0);
  }

  lemma {:induction false} Fetches3()
    ensures Reachable(Fetched3())
  {
    Asks3();
    var c := Asked3();
    Round3();
    Hears(c, 1, 1, Reply(1, 1), RoundResult(ONE, Settled), Fetching);
    var c1 := c.(nodes := c.nodes[1 := Following(1, ONE, 0, 3, 0, Fetching)]);
    Then(c, Hear(1, 1), c1);
    Fetches(c1, 1, FETCH1);
    Then(c1, SendFetch(1), Fetched3());
  }

  lemma {:induction false} OneAck(st: State)
    requires st.local == 0 && st.hw == 0 && st.leaderEpoch == 3
    ensures NewAcks(st, st.(isr := CAUGHT_UP, hw := 1)) == {Ack(3, 1, 1)}
  {
    assert CAUGHT_UP[1].broker == 1;
  }

  /** The leader of epoch 3 hears that broker 1 has the first offset, and counts on it. */
  lemma {:induction false} CountsOn(c: Cluster, log: ReplicaLog, count: nat, data: seq<Batch>, c': Cluster)
    requires Reachable(c) && 0 in c.nodes && c.nodes[0] == Serving(0, log, 0, 3, BOTH) && FETCH1 in c.requests
    requires 1 <= log.End() <= 2
    requires var rest := log.batches[CountUpTo(log.batches, 1)..]; data == rest[..Min(count, |rest|)]
    requires c' == c.(nodes := c.nodes[0 := Serving(0, log, 1, 3, CAUGHT_UP)],
                      responses := c.responses + {FetchResponse(1, 3, 1, data, 1)},
                      acks := c.acks + {Ack(3, 1, 1)})
    ensures Reachable(c')
  {
    IsrFacts();
    Serves(c, 0, FETCH1, count, CAUGHT_UP, 1, data);
    OneAck(c.nodes[0].st);
    Then(c, ServeFetch(0, FETCH1, count), c');
  }

  lemma {:induction false} Acks3()
    ensures Reachable(Acked3())
  {
    Fetches3();
    CountsOn(Fetched3(), ONE3, 0, [], Acked3());
  }

  /**
   Now the answer of epoch 2 arrives. It is acted on, and broker 1 loses the batch that the
   leader of its epoch has acknowledged counting on it.
   */
  lemma {:induction false} LateAnswerCutsAcked()
    ensures Reachable(Acked3()) && Ack(3, 1, 1) in Acked3().acks
    ensures var a := HearLate(1, 2, 1, 0, ONE);
            && Enabled(Acked3(), a) && !Clean(Acked3(), a)
            && Next(Acked3(), a).nodes[1].known == 3 && Next(Acked3(), a).nodes[1].st.log == NOTHING
  {
    Acks3();
    LateCut();
    assert FETCH1 in Acked3().requests;
  }

  lemma {:induction false} LateCut()
    ensures AnswerOf(EMPTY2, 1) == Reply(1, 0) && Round(ONE, Reply(1, 0)).log == NOTHING
    ensures EMPTY2.batches[..0] == []
  {
    EntryAnswers(ONE, 0);
  }

  // ----- An unused epoch in the cache -----

  const TWO: ReplicaLog := ReplicaLog([Single(0, 1), Single(1, 1)], [Entry(1, 0)])

  const TWO3: ReplicaLog := ReplicaLog([Single(0, 1), Single(1, 1)], [Entry(1, 0), Entry(3, 2)])

  const UNUSED2: ReplicaLog := ReplicaLog([Single(0, 1)], [Entry(1, 0), Entry(2, 1)])

  const DATA1: FetchResponse := FetchResponse(1, 3, 1, [Single(1, 1)], 1)

  /** The leader of epoch 1 writes a second batch. */
  function Written2(): Cluster {
    Copied().(nodes := Copied().nodes[0 := Serving(0, TWO, 0, 1, BOTH)],
              epochs := Copied().epochs[1 := Leadership(0, TWO, 0)])
  }

  lemma {:induction false} Writes2()
    ensures Reachable(Written2())
  {
    Copies();
    IsrFacts();
    Produces(Copied(), 0, Single(1, 1), TWO);
    Then(Copied(), Produce(0, [SENT], 1000), Written2());
  }

  /** Broker 1 leads epoch 2 and writes nothing. */
  function Unused(): Cluster {
    Written2().(nodes := Written2().nodes[1 := Serving(1, UNUSED2, 0, 2, [])],
                epochs := Written2().epochs[2 := Leadership(1, UNUSED2, 1)])
  }

  lemma {:induction false} Unuses()
    ensures Reachable(Unused())
  {
    Writes2();
    AssignedIs([Entry(1, 0)], 2, 1, 1);
    assert [Entry(1, 0)][..1] == [Entry(1, 0)];
    Elects(Written2(), 1, 2, [], UNUSED2, []);
    Then(Written2(), Elect(1, 2, []), Unused());
  }

  /** Broker 0 leads epoch 3, and broker 1 asks it where epoch 2 ends. */
  function AskedUnused(): Cluster {
    Unused().(nodes := Unused().nodes[0 := Serving(0, TWO3, 0, 3, BOTH)]
                                     [1 := Following(1, UNUSED2, 0, 3, 0, Asking(2, 2))],
              epochs := Unused().epochs[3 := Leadership(0, TWO3, 2)])
  }

  lemma {:induction false} AsksUnused()
    ensures Reachable(AskedUnused())
  {
    Unuses();
    var c := Unused();
    AssignedIs([Entry(1, 0)], 3, 2, 1);
    assert [Entry(1, 0)][..1] == [Entry(1, 0)] && FreshIsr([0, 1]) == BOTH;
    Elects(c, 0, 3, [0, 1], TWO3, BOTH);
    var c1 := c.(nodes := c.nodes[0 := Serving(0, TWO3, 0, 3, BOTH)], epochs := c.epochs[3 := Leadership(0, TWO3, 2)]);
    Then(c, Elect(0, 3, [0, 1]), c1);
    FollowsAndAsks(c1, 1, 3, 0, Asking(2, 2), AskedUnused());
  }

  lemma {:induction false} RoundUnused()
    ensures AnswerOf(TWO3, 2) == Reply(1, 2) && Round(UNUSED2, Reply(1, 2)) == RoundResult(UNUSED2, Settled)
    ensures TWO3.batches[..2] == TWO3.batches
  {
    EpochsUpToEntry(TWO3.cache, 0);
    EntryAnswers(UNUSED2, 0);
  }

  /** The follower settles on epoch 1, keeps the unused entry, and fetches the second batch. */
  function FetchedUnused(): Cluster {
    AskedUnused().(nodes := AskedUnused().nodes[1 := Following(1, UNUSED2, 0, 3, 0, Fetching)],
                   requests := {FETCH0, FETCH1})
  }

  lemma {:induction false} FetchesUnused()
    ensures Reachable(FetchedUnused())
  {
    AsksUnused();
    var c := AskedUnused();
    RoundUnused();
    Hears(c, 1, 2, Reply(1, 2), RoundResult(UNUSED2, Settled), Fetching);
    var c1 := c.(nodes := c.nodes[1 := Following(1, UNUSED2, 0, 3, 0, Fetching)]);
    Then(c, Hear(1, 2), c1);
    Fetches(c1, 1, FETCH1);
    Then(c1, SendFetch(1), FetchedUnused());
  }

  function ServedUnused(): Cluster {
    FetchedUnused().(nodes := FetchedUnused().nodes[0 := Serving(0, TWO3, 1, 3, CAUGHT_UP)],
                     responses := {DATA0, DATA1}, acks := {Ack(3, 1, 1)})
  }

  lemma {:induction false} ServesUnused()
    ensures Reachable(ServedUnused())
  {
    FetchesUnused();
    assert TWO3.batches[..1] == [Single(0, 1)] && TWO3.batches[1..][..1] == [Single(1, 1)];
    CountsOn(FetchedUnused(), TWO3, 1, [Single(1, 1)], ServedUnused());
  }

  /** The batch of epoch 1 then makes the cache forget where epoch 1 began. */
  lemma {:induction false} UnusedEpochCutsHistory()
    ensures Reachable(ServedUnused())
    ensures var a := Deliver(1, DATA1);
            && Enabled(ServedUnused(), a) && !Clean(ServedUnused(), a)
            && Next(ServedUnused(), a).nodes[1].st.log.cache == [Entry(1, 1)]
  {
    ServesUnused();
    Misfits(ServedUnused(), 1, DATA1, Single(1, 1));
    AssignedIs(UNUSED2.cache, 1, 1, 0);
  }

  // ----- An epoch that was cut off while it was asked for -----

  function Led(c: Cluster, id: int, epoch: int, log: ReplicaLog, base: nat): Cluster {
    c.(nodes := c.nodes[id := Serving(id, log, 0, epoch, [])], epochs := c.epochs[epoch := Leadership(id, log, base)])
  }

  /** A broker leads a new epoch alone. */
  lemma {:induction false} LeadsAlone(c: Cluster, id: int, epoch: int, log: ReplicaLog)
    requires Reachable(c) && id in c.nodes && 0 <= epoch && c.nodes[id].known < epoch && epoch !in c.epochs
    requires var st := c.nodes[id].st;
             && st.local == id && !st.closed && st.hw == 0 && Increasing(st.log.cache)
             && (|st.log.cache| > 0 ==>
                   var last := st.log.cache[|st.log.cache| - 1]; last.epoch < epoch && last.start < st.End())
             && log == ReplicaLog(st.log.batches, st.log.cache + [Entry(epoch, st.End())])
    ensures Reachable(Led(c, id, epoch, log, |log.batches|))
  {
    var r := c.nodes[id].st.log;
    AssignedIs(r.cache, epoch, r.End(), |r.cache|);
    assert r.cache[..|r.cache|] == r.cache;
    Elects(c, id, epoch, [], log, []);
    Then(c, Elect(id, epoch, []), Led(c, id, epoch, log, |log.batches|));
  }

  lemma {:induction false} WritesAlone(c: Cluster, id: int, epoch: int, r: ReplicaLog, log: ReplicaLog)
    requires Reachable(Led(c, id, epoch, r, |r.batches|)) && r.End() < MAX_OFFSET
    requires log == ReplicaLog(r.batches + [Single(r.End(), epoch)], r.cache)
    ensures Reachable(Led(c, id, epoch, log, |r.batches|))
  {
    var c1 := Led(c, id, epoch, r, |r.batches|);
    Produces(c1, id, Single(r.End(), epoch), log);
    Then(c1, Produce(id, [SENT], 1000), Led(c, id, epoch, log, |r.batches|));
  }

  /** A broker leads a new epoch, alone, and writes one batch. */
  lemma {:induction false} LeadsAndWrites(c: Cluster, id: int, epoch: int, log: ReplicaLog, base: nat)
    requires Reachable(c) && id in c.nodes && 0 <= epoch && c.nodes[id].known < epoch && epoch !in c.epochs
    requires var st := c.nodes[id].st;
             && st.local == id && !st.closed && st.hw == 0 && st.End() < MAX_OFFSET && Increasing(st.log.cache)
             && (|st.log.cache| > 0 ==>
                   var last := st.log.cache[|st.log.cache| - 1]; last.epoch < epoch && last.start < st.End())
             && base == |st.log.batches|
             && log == ReplicaLog(st.log.batches + [Single(st.End(), epoch)], st.log.cache + [Entry(epoch, st.End())])
    ensures Reachable(Led(c, id, epoch, log, base))
  {
    var r := c.nodes[id].st.log.(cache := log.cache);
    LeadsAlone(c, id, epoch, r);
    WritesAlone(c, id, epoch, r, log);
  }

  const AFTER3: ReplicaLog := ReplicaLog([Single(0, 1), Single(1, 1), Single(2, 3)], [Entry(1, 0), Entry(3, 2)])

  const AFTER2: ReplicaLog := ReplicaLog([Single(0, 2)], [Entry(2, 0)])

  const AFTER4: ReplicaLog := ReplicaLog([Single(0, 2), Single(1, 4)], [Entry(2, 0), Entry(4, 1)])

  lemma {:induction false} InOrder(a: Entry, b: Entry)
    requires 0 <= a.epoch < b.epoch && a.start < b.start
    ensures Increasing([a]) && Increasing([a, b])
  {
    assert [a][..0] == [] && [a, b][..1] == [a];
  }

  lemma {:induction false} LeadsFirst()
    ensures Reachable(Led(Start(), 1, 1, ONE, 0))
  {
    assert Reaches(Start(), [], Start());
    assert [] + [Single(0, 1)] == [Single(0, 1)] && [] + [Entry(1, 0)] == [Entry(1, 0)];
    LeadsAndWrites(Start(), 1, 1, ONE, 0);
  }

  /** Broker 1 has led epoch 1 for two batches. */
  function Led1(): Cluster { Led(Led(Start(), 1, 1, ONE, 0), 1, 1, TWO, 0) }

  lemma {:induction false} Leads1()
    ensures Reachable(Led1())
  {
    LeadsFirst();
    var c := Led(Start(), 1, 1, ONE, 0);
    Produces(c, 1, Single(1, 1), TWO);
    Then(c, Produce(1, [SENT], 1000), Led1());
  }

  /** It has led epochs 3 and 5 as well. */
  function Led5(): Cluster { Led(Led(Led1(), 1, 3, AFTER3, 2), 1, 5, Follower(), 3) }

  lemma {:induction false} Leads3()
    ensures Reachable(Led(Led1(), 1, 3, AFTER3, 2))
  {
    Leads1();
    InOrder(Entry(1, 0), Entry(3, 2));
    LeadsAndWrites(Led1(), 1, 3, AFTER3, 2);
  }

  lemma {:induction false} Leads5()
    ensures Reachable(Led5())
  {
    Leads3();
    InOrder(Entry(1, 0), Entry(3, 2));
    LeadsAndWrites(Led(Led1(), 1, 3, AFTER3, 2), 1, 5, Follower(), 3);
  }

  /** Broker 0, which none of that reached, has led epochs 2 and 4. */
  function Led4(): Cluster { Led(Led(Led5(), 0, 2, AFTER2, 0), 0, 4, AFTER4, 1) }

  lemma {:induction false} Leads2()
    ensures Reachable(Led(Led5(), 0, 2, AFTER2, 0))
  {
    Leads5();
    LeadsAndWrites(Led5(), 0, 2, AFTER2, 0);
  }

  lemma {:induction false} Leads4()
    ensures Reachable(Led4())
  {
    Leads2();
    InOrder(Entry(2, 0), Entry(4, 1));
    LeadsAndWrites(Led(Led5(), 0, 2, AFTER2, 0), 0, 4, AFTER4, 1);
  }

  /** Broker 0 leads epoch 6, and broker 1 asks it where epoch 5 ends. */
  function Asked5(): Cluster {
    Led(Led4(), 0, 6, Leader(), 2).(
      nodes := Led(Led4(), 0, 6, Leader(), 2).nodes[1 := Following(1, Follower(), 0, 6, 0, Asking(5, 3))])
  }

  lemma {:induction false} Asks5()
    ensures Reachable(Asked5())
  {
    Leads4();
    InOrder(Entry(2, 0), Entry(4, 1));
    LeadsAndWrites(Led4(), 0, 6, Leader(), 2);
    FollowsAndAsks(Led(Led4(), 0, 6, Leader(), 2), 1, 6, 0, Asking(5, 3), Asked5());
  }

  /** The answer cuts off epoch 3, which broker 1 asks for next. */
  function Asked3Next(): Cluster {
    Asked5().(nodes := Asked5().nodes[1 := Following(1, TWO, 0, 6, 0, Asking(3, 3))])
  }

  lemma {:induction false} SampleRounds()
    ensures Leader().batches[..3] == Leader().batches
    ensures AnswerOf(Leader(), 5) == Reply(4, 2) && Round(Follower(), Reply(4, 2)) == RoundResult(TWO, Continue(3))
    ensures AnswerOf(Leader(), 3) == Reply(2, 1) && Round(TWO, Reply(2, 1)).outcome == Unknown
    ensures Round(TWO, Reply(2, 1)).log.batches == [Single(0, 1)]
  {
    SampleAnswers();
    var f1, f2 := SampleCuts();
  }

  lemma {:induction false} Asks3Next()
    ensures Reachable(Asked3Next())
  {
    Asks5();
    SampleRounds();
    Hears(Asked5(), 1, 3, Reply(4, 2), RoundResult(TWO, Continue(3)), Asking(3, 3));
    Then(Asked5(), Hear(1, 3), Asked3Next());
  }

  /** Reconciliation then succeeds, and broker 1 fetches with a log that differs from its leader's. */
  lemma {:induction false} UnknownEpochDiverges()
    ensures Reachable(Asked3Next())
    ensures var a := Hear(1, 3);
            && Enabled(Asked3Next(), a) && !Clean(Asked3Next(), a)
            && var n := Next(Asked3Next(), a).nodes[1];
            n.phase == Fetching && n.st.log.batches == [Single(0, 1)]
    ensures 6 in Asked3Next().epochs && Single(0, 1) !in Asked3Next().epochs[6].log.batches
  {
    Asks3Next();
    SampleRounds();
    HearsUnknown(Asked3Next(), 1, 3, Reply(2, 1), Round(TWO, Reply(2, 1)));
  }

  // ----- A request of more than 2^32 records -----

  /** The most records a batch can have, and a size of which a fetch of 1 MiB takes one. */
  const WIDE: nat := 0x7FFF_FFFF

  function Wide(base: nat, epoch: int): Batch { Batch(base, WIDE, epoch, 0x9_0000, []) }

  const REQUEST: seq<Batch> := [Wide(0, 0), Wide(0, 0), Wide(0, 0)]

  const STORED3: ReplicaLog := ReplicaLog([Wide(0, 1), Wide(WIDE, 1), Wide(2 * WIDE, 1)], [Entry(1, 0)])

  const FIRST: ReplicaLog := ReplicaLog([Wide(0, 1)], [Entry(1, 0)])

  const HAS_FIRST: seq<IsrEntry> := [IsrEntry(0, 0), IsrEntry(1, WIDE)]

  const DATA_WIDE: FetchResponse := FetchResponse(1, 1, 0, [Wide(0, 1)], 0)

  const FETCH_WIDE: FetchRequest := FetchRequest(1, 1, WIDE)

  /** Broker 0 leads epoch 1, and broker 1, in the ISR, is ready to fetch. */
  function Waiting(): Cluster {
    Elected1().(nodes := Elected1().nodes[1 := Following(1, NOTHING, 0, 1, 0, Fetching)])
  }

  lemma {:induction false} Waits()
    ensures Reachable(Waiting())
  {
    Elects1();
    var c := Elected1();
    Follows(c, 1, 1, 0);
    var c1 := c.(nodes := c.nodes[1 := Following(1, NOTHING, 0, 1, 0, Unreconciled)]);
    Then(c, Follow(1, 1, 0), c1);
    Asks(c1, 1, Fetching);
    Then(c1, Ask(1), Waiting());
  }

  lemma {:induction false} WideRun()
    ensures Records(REQUEST) == 3 * WIDE && RequiredHw(0, REQUEST) == WIDE - 2
    ensures Stamp(REQUEST, 0, 1) == STORED3.batches
  {
    assert REQUEST[..2] == [Wide(0, 0), Wide(0, 0)] && REQUEST[..2][..1] == [Wide(0, 0)];
    assert [Wide(0, 0)][..0] == [];
    assert Records([Wide(0, 0)]) == WIDE && Stamp([Wide(0, 0)], 0, 1) == [Wide(0, 1)];
    assert Records(REQUEST[..2]) == 2 * WIDE && Stamp(REQUEST[..2], 0, 1) == [Wide(0, 1), Wide(WIDE, 1)];
  }

  lemma {:induction false} WideIsr()
    ensures RecordLeo(BOTH, 1, 0) == BOTH && RecordLeo(BOTH, 1, WIDE) == HAS_FIRST
    ensures IsrMin(BOTH, 0, 3 * WIDE) == 0 && IsrMin(HAS_FIRST, 0, 3 * WIDE) == WIDE
  {
    PairMin(0, 3 * WIDE);
    PairMin(WIDE, 3 * WIDE);
    assert BOTH[1..] == [IsrEntry(1, 0)];
  }

  lemma {:induction false} PairMin(leo: nat, end: nat)
    requires leo <= end
    ensures IsrMin([IsrEntry(0, 0), IsrEntry(1, leo)], 0, end) == leo
  {
    assert [IsrEntry(0, 0), IsrEntry(1, leo)][1..] == [IsrEntry(1, leo)] && [IsrEntry(1, leo)][1..] == [];
    assert IsrMin([IsrEntry(1, leo)], 0, end) == leo;
  }

  function Stored(): Cluster {
    Waiting().(nodes := Waiting().nodes[0 := Serving(0, STORED3, 0, 1, BOTH)],
               epochs := map[1 := Leadership(0, STORED3, 0)])
  }

  lemma {:induction false} Stores()
    ensures Steps(Waiting(), Produce(0, REQUEST, 0x10_0000), Stored())
  {
    WideRun();
    WideIsr();
    ProducesRun(Waiting(), 0, REQUEST, 0x10_0000, STORED3);
  }

  lemma {:induction false} FirstOfStored()
    ensures var rest := STORED3.batches[CountUpTo(STORED3.batches, 0)..]; [Wide(0, 1)] == rest[..Min(1, |rest|)]
  {
    var bs := STORED3.batches;
    assert CountUpTo(bs[..2], 0) == 0 by { assert bs[..2][..1][..0] == [] && CountUpTo(bs[..2][..1], 0) == 0; }
    assert bs[0..][..1] == [Wide(0, 1)];
  }

  function Asked(): Cluster { Stored().(requests := {FETCH0}) }

  lemma {:induction false} AsksForFirst()
    ensures ReachableFrom(Stored(), Asked())
  {
    var c := Stored();
    assert Reaches(c, [], c);
    Fetches(c, 1, FETCH0);
    Onward(c, c, SendFetch(1), Asked());
  }

  /** Broker 1 is sent the first batch. */
  function Sent(): Cluster { Stored().(requests := {FETCH0}, responses := {DATA_WIDE}) }

  lemma {:induction false} Sends()
    ensures ReachableFrom(Stored(), Sent())
  {
    AsksForFirst();
    var c := Asked();
    WideIsr();
    FirstOfStored();
    Serves(c, 0, FETCH0, 1, BOTH, 0, [Wide(0, 1)]);
    assert c.nodes[0 := c.nodes[0]] == c.nodes;
    Onward(Stored(), c, ServeFetch(0, FETCH0, 1), Sent());
  }

  function Took(): Cluster { Sent().(nodes := Sent().nodes[1 := Following(1, FIRST, 0, 1, 0, Fetching)]) }

  lemma {:induction false} Takes()
    ensures ReachableFrom(Stored(), Took())
  {
    Sends();
    assert Assigned([], 1, 0) == [Entry(1, 0)];
    Delivers(Sent(), 1, DATA_WIDE, Wide(0, 1), FIRST);
    Onward(Stored(), Sent(), Deliver(1, DATA_WIDE), Took());
  }

  /** It has stored it, and asks for more. */
  function HasFirst(): Cluster { Took().(requests := {FETCH0, FETCH_WIDE}) }

  lemma {:induction false} StoresFirst()
    ensures ReachableFrom(Stored(), HasFirst())
  {
    Takes();
    Fetches(Took(), 1, FETCH_WIDE);
    Onward(Stored(), Took(), SendFetch(1), HasFirst());
  }

  /** The leader hears that, and raises its high watermark. */
  function HeardFirst(): Cluster {
    HasFirst().(nodes := HasFirst().nodes[0 := Serving(0, STORED3, WIDE, 1, HAS_FIRST)],
                responses := {DATA_WIDE, FetchResponse(1, 1, WIDE, [], WIDE)},
                acks := {Ack(1, 1, WIDE)})
  }

  lemma {:induction false} WideAck(st: State)
    requires st.local == 0 && st.hw == 0 && st.leaderEpoch == 1
    ensures NewAcks(st, st.(isr := HAS_FIRST, hw := WIDE)) == {Ack(1, 1, WIDE)}
  {
    assert HAS_FIRST[1].broker == 1;
  }

  lemma {:induction false} CountsOnFirst(c: Cluster, c': Cluster)
    requires ReachableFrom(Stored(), c) && 0 in c.nodes && c.nodes[0] == Serving(0, STORED3, 0, 1, BOTH)
    requires FETCH_WIDE in c.requests
    requires c' == c.(nodes := c.nodes[0 := Serving(0, STORED3, WIDE, 1, HAS_FIRST)],
                      responses := c.responses + {FetchResponse(1, 1, WIDE, [], WIDE)},
                      acks := c.acks + {Ack(1, 1, WIDE)})
    ensures ReachableFrom(Stored(), c')
  {
    WideIsr();
    Serves(c, 0, FETCH_WIDE, 0, HAS_FIRST, WIDE, []);
    WideAck(c.nodes[0].st);
    Onward(Stored(), c, ServeFetch(0, FETCH_WIDE, 0), c');
  }

  lemma {:induction false} HearsFirst()
    ensures ReachableFrom(Stored(), HeardFirst())
  {
    StoresFirst();
    CountsOnFirst(HasFirst(), HeardFirst());
  }

  /**
   The request of three batches then is told that it succeeded: the high watermark is past what
   it waits for, while the only follower has the first batch only.
   */
  lemma {:induction false} WideRequestIsWokenEarly()
    ensures Reachable(Waiting()) && Steps(Waiting(), Produce(0, REQUEST, 0x10_0000), Stored())
    ensures ReachableFrom(Stored(), HeardFirst())
    ensures var n := HeardFirst().nodes[0];
            && n.st.isLeader && n.known == Waiting().nodes[0].known && n.st.isr == HAS_FIRST && n.st.log == STORED3
            && RequiredHw(Waiting().nodes[0].st.End(), REQUEST) <= n.st.hw < n.st.End()
    ensures HeardFirst().nodes[1].st.log == FIRST && FIRST.batches < STORED3.batches
    ensures forall i :: 0 <= i < |REQUEST| ==> REQUEST[i].WellFormed() && REQUEST[i].count < TWO_TO_31
  {
    Waits();
    Stores();
    HearsFirst();
    OnlyFirst();
  }

  lemma {:induction false} OnlyFirst()
    ensures RequiredHw(Waiting().nodes[0].st.End(), REQUEST) <= WIDE < STORED3.End()
    ensures FIRST.batches < STORED3.batches
    ensures forall i :: 0 <= i < |REQUEST| ==> REQUEST[i].WellFormed() && REQUEST[i].count < TWO_TO_31
  {
    WideRun();
  }

  // ----- An answer inside a batch -----

  const PAIR: Batch := Batch(0, 2, 0, RECORD_BATCH_OVERHEAD, [])

  const PAIR1: ReplicaLog := ReplicaLog([PAIR.(epoch := 1)], [Entry(1, 0)])

  const PAIR5: ReplicaLog := ReplicaLog([PAIR.(epoch := 1), Single(2, 5)], [Entry(1, 0), Entry(5, 2)])

  const ALONE3: ReplicaLog := ReplicaLog([Single(0, 3)], [Entry(3, 0)])

  const ALONE6: ReplicaLog := ReplicaLog([Single(0, 3), Single(1, 6)], [Entry(3, 0), Entry(6, 1)])

  /** Broker 1 has led epoch 1 for a batch of two records. */
  lemma {:induction false} LeadsPair()
    ensures Reachable(Led(Start(), 1, 1, PAIR1, 0))
  {
    assert Reaches(Start(), [], Start());
    assert [] + [Entry(1, 0)] == [Entry(1, 0)];
    LeadsAlone(Start(), 1, 1, EMPTY1);
    var c := Led(Start(), 1, 1, EMPTY1, 0);
    assert [PAIR][..0] == [] && Stamp([PAIR], 0, 1) == [PAIR.(epoch := 1)] && Records([PAIR]) == 2;
    ProducesRun(c, 1, [PAIR], 1000, PAIR1);
    Then(c, Produce(1, [PAIR], 1000), Led(Start(), 1, 1, PAIR1, 0));
  }

  /** Broker 0, which that did not reach, has led epoch 3. */
  function Led3(): Cluster { Led(Led(Start(), 1, 1, PAIR1, 0), 0, 3, ALONE3, 0) }

  lemma {:induction false} LeadsOther()
    ensures Reachable(Led3())
  {
    LeadsPair();
    assert [] + [Single(0, 3)] == [Single(0, 3)] && [] + [Entry(3, 0)] == [Entry(3, 0)];
    LeadsAndWrites(Led(Start(), 1, 1, PAIR1, 0), 0, 3, ALONE3, 0);
  }

  /** Broker 1 has led epoch 5 and broker 0 epoch 6. */
  function Led6(): Cluster { Led(Led(Led3(), 1, 5, PAIR5, 1), 0, 6, ALONE6, 1) }

  lemma {:induction false} LeadsBoth()
    ensures Reachable(Led6())
  {
    LeadsOther();
    InOrder(Entry(1, 0), Entry(5, 2));
    LeadsAndWrites(Led3(), 1, 5, PAIR5, 1);
    InOrder(Entry(3, 0), Entry(6, 1));
    LeadsAndWrites(Led(Led3(), 1, 5, PAIR5, 1), 0, 6, ALONE6, 1);
  }

  /** Broker 1 follows it and asks where epoch 5 ends. */
  function AskedSplit(): Cluster {
    Led6().(nodes := Led6().nodes[1 := Following(1, PAIR5, 0, 6, 0, Asking(5, 2))])
  }

  lemma {:induction false} AsksSplit()
    ensures Reachable(AskedSplit())
  {
    LeadsBoth();
    FollowsAndAsks(Led6(), 1, 6, 0, Asking(5, 2), AskedSplit());
  }

  lemma {:induction false} SplitRound()
    ensures ALONE6.batches[..2] == ALONE6.batches
    ensures AnswerOf(ALONE6, 5) == Reply(3, 1) && Round(PAIR5, Reply(3, 1)) == RoundResult(PAIR5, Rejected)
  {
    EntryEpochs(ALONE6.cache, 5, 1);
    EntryEpochs(PAIR5.cache, 3, 1);
    assert CountUpTo(PAIR5.batches, 1) == 0 by { assert PAIR5.batches[..1] == [PAIR.(epoch := 1)]; }
  }

  /**
   The answer ends inside the batch of two records. The round fails, changes nothing, and when
   broker 1 asks again the cluster is where it was: it never follows this leader.
   */
  lemma {:induction false} SplitBatchBlocks()
    ensures Reachable(AskedSplit()) && Steps(AskedSplit(), Hear(1, 2), RejectedSplit())
    ensures Steps(RejectedSplit(), Ask(1), AskedSplit())
    ensures !(PAIR5.batches <= ALONE6.batches)
  {
    AsksSplit();
    SplitRound();
    var c := AskedSplit();
    assert c.nodes[1].st == Trimmed(c.nodes[1].st, PAIR5);
    Asks(RejectedSplit(), 1, Asking(5, 2));
  }

  function RejectedSplit(): Cluster {
    AskedSplit().(nodes := AskedSplit().nodes[1 := Following(1, PAIR5, 0, 6, 0, Unreconciled)])
  }
}
