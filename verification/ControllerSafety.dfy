/**
 What every command log keeps: assignments stay valid, partitions stay numbered from 0, and
 a leader epoch never names two leaders.
 */
module ControllerSafety {
  import opened Batches
  import opened Controller

  // ----- Invariant -----

  ghost predicate BrokerOk(id: int, b: Broker, c: Cleaning) {
    b.id == id >= 0 && b.incarnation != "" && b.epoch > 0 && Normal(b.endpoints, c)
  }

  ghost predicate PartitionOk(s: State, k: Key) {
    k in s.partitions ==>
      var p := s.partitions[k];
      k.topic in s.topics && k.partition >= 0 && ValidSpec(s.brokers, p.leader, p.replicas, p.isr)
  }

  /** The partitions of a topic are numbered from 0 to `n` - 1. */
  ghost predicate Numbered(partitions: map<Key, Assignment>, topic: string, n: nat) {
    forall i :: Key(topic, i) in partitions <==> 0 <= i < n
  }

  ghost predicate TopicOk(s: State, topic: string) {
    topic != "" && exists n :: n > 0 && Numbered(s.partitions, topic, n)
  }

  ghost predicate Inv(s: State, c: Cleaning) {
    && (forall id :: id in s.brokers ==> BrokerOk(id, s.brokers[id], c))
    && (forall k :: k in s.partitions ==> PartitionOk(s, k))
    && (forall t :: t in s.topics ==> TopicOk(s, t))
  }

  // ----- Every command keeps it -----

  lemma {:induction false} RegisterKeeps(s: State, cmd: Command, index: nat, c: Cleaning)
    requires Inv(s, c) && c.Idempotent() && cmd.RegisterBroker? && Register(s, cmd, index, c).Some?
    ensures Inv(Register(s, cmd, index, c).value, c)
  {
    var t := Register(s, cmd, index, c).value;
    NormalizedIsNormal(cmd.endpoints, c);
    forall id | id in t.brokers ensures BrokerOk(id, t.brokers[id], c) {
      assert id in s.brokers ==> BrokerOk(id, s.brokers[id], c);
    }
    forall k | k in t.partitions ensures PartitionOk(t, k) {
      assert PartitionOk(s, k);
      assert t != s ==> cmd.id !in s.partitions[k].isr;
    }
    forall name | name in t.topics ensures TopicOk(t, name) { assert TopicOk(s, name); }
  }

  lemma {:induction false} UnfenceKeeps(s: State, cmd: Command, c: Cleaning)
    requires Inv(s, c) && cmd.UnfenceBroker? && Unfence(s, cmd).Some?
    ensures Inv(Unfence(s, cmd).value, c)
  {
    var t := Unfence(s, cmd).value;
    forall id | id in t.brokers ensures BrokerOk(id, t.brokers[id], c) { assert BrokerOk(id, s.brokers[id], c); }
    forall k | k in t.partitions ensures PartitionOk(t, k) { assert PartitionOk(s, k); }
    forall name | name in t.topics ensures TopicOk(t, name) { assert TopicOk(s, name); }
  }

  lemma {:induction false} UpdateKeeps(s: State, cmd: Command, c: Cleaning)
    requires Inv(s, c) && cmd.UpdatePartition? && Update(s, cmd).Some?
    ensures Inv(Update(s, cmd).value, c)
  {
    var t := Update(s, cmd).value;
    forall k | k in t.partitions ensures PartitionOk(t, k) { assert PartitionOk(s, k); }
    forall name | name in t.topics ensures TopicOk(t, name) {
      assert TopicOk(s, name);
      var n :| n > 0 && Numbered(s.partitions, name, n);
      assert Numbered(t.partitions, name, n);
    }
  }

  // ----- Creating a topic -----

  /** The numbers below `n`. */
  function Range(n: nat): (r: set<int>)
    ensures |r| == n && forall i :: i in r <==> 0 <= i < n
  {
    if n == 0 then {} else Range(n - 1) + {n - 1}
  }

  lemma {:induction false} NumbersSize(specs: seq<Spec>)
    ensures |Numbers(specs)| <= |specs|
  {
    if |specs| > 0 {
      var n := |specs| - 1;
      NumbersSize(specs[..n]);
      assert Numbers(specs) == Numbers(specs[..n]) + {specs[n].partition};
    }
  }

  lemma {:induction false} SubsetSize(a: set<int>, b: set<int>)
    requires a <= b
    ensures |a| <= |b|
    ensures |a| == |b| ==> a == b
  {
    assert b == a + (b - a);
    if |a| == |b| { assert |b - a| == 0; }
  }

  /** The numbers of contiguous partitions are exactly those below their count. */
  lemma {:induction false} ContiguousNumbers(specs: seq<Spec>)
    requires ContiguousSpecs(specs)
    ensures forall p :: p in Numbers(specs) <==> 0 <= p < |specs|
  {
    NumbersSize(specs);
    SubsetSize(Range(|specs|), Numbers(specs));
  }

  /** Only the new keys are touched, and each gets its specification at epoch 0. */
  lemma {:induction false} WithSpecsIs(ps: map<Key, Assignment>, topic: string, specs: seq<Spec>, k: Key)
    ensures k in WithSpecs(ps, topic, specs) <==>
            k in ps || (k.topic == topic && k.partition in Numbers(specs))
    ensures k in WithSpecs(ps, topic, specs) && !(k.topic == topic && k.partition in Numbers(specs)) ==>
              WithSpecs(ps, topic, specs)[k] == ps[k]
    ensures k.topic == topic && k.partition in Numbers(specs) ==>
              exists i :: 0 <= i < |specs| && specs[i].partition == k.partition
                && WithSpecs(ps, topic, specs)[k] == Assignment(specs[i].leader, 0, 0, specs[i].replicas, specs[i].isr)
  {
    if |specs| > 0 {
      var n := |specs| - 1;
      WithSpecsIs(ps, topic, specs[..n], k);
      assert Numbers(specs) == Numbers(specs[..n]) + {specs[n].partition};
      if k == Key(topic, specs[n].partition) {
        assert specs[n].partition == k.partition;
      } else if k.topic == topic && k.partition in Numbers(specs) {
        var i :| 0 <= i < n && specs[..n][i].partition == k.partition
              && WithSpecs(ps, topic, specs[..n])[k]
                 == Assignment(specs[..n][i].leader, 0, 0, specs[..n][i].replicas, specs[..n][i].isr);
        assert specs[i] == specs[..n][i];
      }
    }
  }

  lemma {:induction false} CreateKeeps(s: State, cmd: Command, c: Cleaning)
    requires Inv(s, c) && cmd.CreateTopic? && Create(s, cmd).Some?
    ensures Inv(Create(s, cmd).value, c)
  {
    var t := Create(s, cmd).value;
    ContiguousNumbers(cmd.specs);
    forall k | k in t.partitions ensures PartitionOk(t, k) {
      WithSpecsIs(s.partitions, cmd.name, cmd.specs, k);
      if k in s.partitions { assert PartitionOk(s, k); }
    }
    forall name | name in t.topics ensures TopicOk(t, name) {
      if name == cmd.name {
        NewTopicNumbered(s, cmd);
      } else {
        assert TopicOk(s, name);
        var n :| n > 0 && Numbered(s.partitions, name, n);
        forall i ensures Key(name, i) in t.partitions <==> 0 <= i < n {
          WithSpecsIs(s.partitions, cmd.name, cmd.specs, Key(name, i));
        }
        assert Numbered(t.partitions, name, n);
      }
    }
  }

  lemma {:induction false} NewTopicNumbered(s: State, cmd: Command)
    requires forall k :: k in s.partitions ==> PartitionOk(s, k)
    requires cmd.CreateTopic? && Create(s, cmd).Some?
    ensures Numbered(Create(s, cmd).value.partitions, cmd.name, |cmd.specs|)
  {
    ContiguousNumbers(cmd.specs);
    forall i ensures Key(cmd.name, i) in Create(s, cmd).value.partitions <==> 0 <= i < |cmd.specs| {
      var k := Key(cmd.name, i);
      WithSpecsIs(s.partitions, cmd.name, cmd.specs, k);
      assert k !in s.partitions;
    }
  }

  lemma {:induction false} ApplyKeeps(s: State, cmd: Command, index: nat, c: Cleaning)
    requires Inv(s, c) && c.Idempotent()
    ensures Inv(Apply(s, cmd, index, c), c)
  {
    if Accepts(s, cmd, index, c).Some? {
      match cmd
      case RegisterBroker(_, _, _) => RegisterKeeps(s, cmd, index, c);
      case UnfenceBroker(_, _) => UnfenceKeeps(s, cmd, c);
      case CreateTopic(_, _) => CreateKeeps(s, cmd, c);
      case UpdatePartition(_, _, _, _, _, _) => UpdateKeeps(s, cmd, c);
    }
  }

  /** The invariant holds after every command log. */
  lemma {:induction false} InvAlways(s: State, cmds: seq<Command>, index: nat, c: Cleaning)
    requires Inv(s, c) && c.Idempotent()
    ensures Inv(Run(s, cmds, index, c), c)
  {
    if |cmds| > 0 {
      var n := |cmds| - 1;
      InvAlways(s, cmds[..n], index, c);
      ApplyKeeps(Run(s, cmds[..n], index, c), cmds[n], index + n, c);
    }
  }

  // ----- One leader per epoch -----

  ghost predicate EpochsUpTo(s: State, n: nat) {
    forall k :: k in s.partitions ==> 0 <= s.partitions[k].leaderEpoch <= s.partitions[k].partitionEpoch <= n
  }

  /** `b` is a later state of the same partition: epochs only grow, and an unchanged epoch changed nothing. */
  ghost predicate Later(a: Assignment, b: Assignment) {
    && a.leaderEpoch <= b.leaderEpoch && a.partitionEpoch <= b.partitionEpoch
    && (a.leaderEpoch == b.leaderEpoch ==> a.leader == b.leader)
    && (a.partitionEpoch == b.partitionEpoch ==> a == b)
  }

  /** A command changes a partition only in step with its epochs, and never removes one. */
  lemma {:induction false} ApplyLater(s: State, cmd: Command, index: nat, c: Cleaning, k: Key, n: nat)
    requires Inv(s, c) && EpochsUpTo(s, n) && n < INT32_MAX && k in s.partitions
    ensures k in Apply(s, cmd, index, c).partitions
    ensures Later(s.partitions[k], Apply(s, cmd, index, c).partitions[k])
  {
    if cmd.CreateTopic? && Accepts(s, cmd, index, c).Some? {
      assert PartitionOk(s, k);
      WithSpecsIs(s.partitions, cmd.name, cmd.specs, k);
    }
  }

  lemma {:induction false} ApplyEpochs(s: State, cmd: Command, index: nat, c: Cleaning, n: nat)
    requires Inv(s, c) && EpochsUpTo(s, n) && n < INT32_MAX
    ensures EpochsUpTo(Apply(s, cmd, index, c), n + 1)
  {
    var t := Apply(s, cmd, index, c);
    forall k | k in t.partitions
      ensures 0 <= t.partitions[k].leaderEpoch <= t.partitions[k].partitionEpoch <= n + 1
    {
      if cmd.CreateTopic? && Accepts(s, cmd, index, c).Some? {
        WithSpecsIs(s.partitions, cmd.name, cmd.specs, k);
      }
    }
  }

  lemma {:induction false} RunEpochs(cmds: seq<Command>, index: nat, c: Cleaning)
    requires c.Idempotent() && |cmds| <= INT32_MAX
    ensures Inv(Run(EMPTY, cmds, index, c), c) && EpochsUpTo(Run(EMPTY, cmds, index, c), |cmds|)
  {
    InvAlways(EMPTY, cmds, index, c);
    if |cmds| > 0 {
      var n := |cmds| - 1;
      RunEpochs(cmds[..n], index, c);
      ApplyEpochs(Run(EMPTY, cmds[..n], index, c), cmds[n], index + n, c, n);
    }
  }

  /** An accepted update moves both epochs on exactly when neither is at the 32-bit limit. */
  lemma {:induction false} UpdateIsLater(s: State, cmd: Command)
    requires cmd.UpdatePartition? && Update(s, cmd).Some?
    requires -INT32_MAX - 1 <= s.partitions[cmd.key].partitionEpoch <= INT32_MAX
    requires -INT32_MAX - 1 <= s.partitions[cmd.key].leaderEpoch <= INT32_MAX
    ensures var p := s.partitions[cmd.key];
            Later(p, Update(s, cmd).value.partitions[cmd.key]) <==>
            p.partitionEpoch != INT32_MAX && (cmd.leader != p.leader ==> p.leaderEpoch != INT32_MAX)
  {
  }

  lemma {:induction false} LaterTransitive(a: Assignment, b: Assignment, c: Assignment)
    requires Later(a, b) && Later(b, c)
    ensures Later(a, c)
  {
  }

  lemma {:induction false} LaterStep(cmds: seq<Command>, index: nat, c: Cleaning, j: nat, k: Key)
    requires c.Idempotent() && |cmds| <= INT32_MAX && 0 < j <= |cmds|
    requires k in Run(EMPTY, cmds[..j - 1], index, c).partitions
    ensures k in Run(EMPTY, cmds[..j], index, c).partitions
    ensures Later(Run(EMPTY, cmds[..j - 1], index, c).partitions[k], Run(EMPTY, cmds[..j], index, c).partitions[k])
  {
    RunEpochs(cmds[..j - 1], index, c);
    assert cmds[..j][..j - 1] == cmds[..j - 1];
    ApplyLater(Run(EMPTY, cmds[..j - 1], index, c), cmds[j - 1], index + j - 1, c, k, j - 1);
  }

  /**
   In every command log short enough not to overflow 32 bits, two states of a partition with
   the same leader epoch have the same leader, and with the same partition epoch are equal.
   */
  lemma {:induction false} OneLeaderPerEpoch(cmds: seq<Command>, index: nat, c: Cleaning, i: nat, j: nat, k: Key)
    requires c.Idempotent() && |cmds| <= INT32_MAX && i <= j <= |cmds|
    requires k in Run(EMPTY, cmds[..i], index, c).partitions
    ensures k in Run(EMPTY, cmds[..j], index, c).partitions
    ensures Later(Run(EMPTY, cmds[..i], index, c).partitions[k], Run(EMPTY, cmds[..j], index, c).partitions[k])
    decreases j
  {
    if i < j {
      OneLeaderPerEpoch(cmds, index, c, i, j - 1, k);
      LaterStep(cmds, index, c, j, k);
      LaterTransitive(Run(EMPTY, cmds[..i], index, c).partitions[k], Run(EMPTY, cmds[..j - 1], index, c).partitions[k],
                      Run(EMPTY, cmds[..j], index, c).partitions[k]);
    }
  }

  /**
   Optimistic updates: of all the updates in a command log that expect the same epoch of the
   same partition, at most one is accepted.
   */
  lemma {:induction false} OneUpdatePerEpoch(cmds: seq<Command>, index: nat, c: Cleaning, i: nat, j: nat)
    requires c.Idempotent() && |cmds| <= INT32_MAX && i < j < |cmds|
    requires cmds[i].UpdatePartition? && cmds[j].UpdatePartition?
    requires cmds[i].key == cmds[j].key && cmds[i].expectedEpoch == cmds[j].expectedEpoch
    requires Accepts(Run(EMPTY, cmds[..i], index, c), cmds[i], index + i, c).Some?
    ensures Accepts(Run(EMPTY, cmds[..j], index, c), cmds[j], index + j, c).None?
  {
    RunEpochs(cmds[..i], index, c);
    assert cmds[..i + 1][..i] == cmds[..i];
    OneLeaderPerEpoch(cmds, index, c, i + 1, j, cmds[i].key);
  }

  /** Unless an unclean election was asked for, a new leader comes from the previous ISR. */
  lemma {:induction false} ElectsFromIsr(s: State, cmd: Command, index: nat, c: Cleaning, k: Key)
    requires Inv(s, c) && k in s.partitions && (cmd.UpdatePartition? ==> !cmd.allowUnclean)
    ensures k in Apply(s, cmd, index, c).partitions
    ensures var p, q := s.partitions[k], Apply(s, cmd, index, c).partitions[k];
            q.leader in p.isr && q.leader in q.isr
  {
    assert PartitionOk(s, k);
    if cmd.CreateTopic? && Accepts(s, cmd, index, c).Some? {
      WithSpecsIs(s.partitions, cmd.name, cmd.specs, k);
    }
  }
}
