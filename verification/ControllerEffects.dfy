/**
 What each controller command does: when it is accepted, what it then changes and what it leaves
 alone. An accepted command does what it says.
 */
module ControllerEffects {
  import opened Batches
  import opened Controller
  import opened ControllerSafety

  // ----- Assignments -----

  function Elements(s: seq<int>): set<int> { set x | x in s }

  lemma {:induction false} ElementsCount(s: seq<int>)
    ensures |Elements(s)| <= |s|
    ensures NoDuplicates(s) <==> |Elements(s)| == |s|
  {
    if |s| > 0 {
      var n := |s| - 1;
      ElementsCount(s[..n]);
      assert s == s[..n] + [s[n]];
      assert Elements(s) == Elements(s[..n]) + {s[n]};
      LastDuplicate(s, n);
    }
  }

  lemma {:induction false} LastDuplicate(s: seq<int>, n: nat)
    requires n + 1 == |s|
    ensures NoDuplicates(s) <==> NoDuplicates(s[..n]) && s[n] !in s[..n]
  {
    assert forall i :: 0 <= i < n ==> s[i] == s[..n][i];
    if s[n] in s[..n] {
      var i :| 0 <= i < n && s[..n][i] == s[n];
      assert s[i] == s[n];
    }
  }

  /** Distinct, registered replicas; among them distinct in-sync ones, none fenced; and one of these leads. */
  ghost predicate Assignable(brokers: map<int, Broker>, leader: int, replicas: seq<int>, isr: seq<int>) {
    && |Elements(replicas)| == |replicas| && |Elements(isr)| == |isr|
    && leader in isr && Elements(isr) <= Elements(replicas) <= brokers.Keys
    && forall m :: m in Elements(isr) ==> !brokers[m].fenced
  }

  lemma {:induction false} ValidIffAssignable(brokers: map<int, Broker>, leader: int, replicas: seq<int>, isr: seq<int>)
    ensures ValidSpec(brokers, leader, replicas, isr) <==> Assignable(brokers, leader, replicas, isr)
  {
    ElementsCount(replicas);
    ElementsCount(isr);
    assert forall m :: m in isr ==> m in Elements(isr);
    assert forall r :: r in replicas ==> r in Elements(replicas);
  }

  /** In every state that a command log leads to, every partition is assigned like that. */
  lemma {:induction false} AlwaysAssigned(cmds: seq<Command>, index: nat, c: Cleaning, k: Key)
    requires c.Idempotent() && k in Run(EMPTY, cmds, index, c).partitions
    ensures var s := Run(EMPTY, cmds, index, c);
            var p := s.partitions[k];
            k.topic in s.topics && k.partition >= 0 && Assignable(s.brokers, p.leader, p.replicas, p.isr)
  {
    var s := Run(EMPTY, cmds, index, c);
    InvAlways(EMPTY, cmds, index, c);
    assert PartitionOk(s, k);
    ValidIffAssignable(s.brokers, s.partitions[k].leader, s.partitions[k].replicas, s.partitions[k].isr);
  }

  // ----- Updating a partition -----

  /**
   An update is accepted if and only if it expects the current epoch, the assignment is possible,
   and a new leader is in sync or an unclean election was asked for. It then is the assignment;
   the leader epoch moves on if and only if the leader changes; everything else stays.
   */
  lemma {:induction false} UpdateOutcome(s: State, cmd: Command, index: nat, c: Cleaning)
    requires cmd.UpdatePartition?
    ensures var r, s' := Accepts(s, cmd, index, c), Apply(s, cmd, index, c);
            && (r.Some? <==>
                && cmd.key in s.partitions && s.partitions[cmd.key].partitionEpoch == cmd.expectedEpoch
                && Assignable(s.brokers, cmd.leader, cmd.replicas, cmd.isr)
                && (cmd.leader == s.partitions[cmd.key].leader || cmd.leader in s.partitions[cmd.key].isr
                    || cmd.allowUnclean))
            && s'.brokers == s.brokers && s'.topics == s.topics && s'.partitions.Keys == s.partitions.Keys
            && (forall k :: k in s.partitions && (k != cmd.key || r.None?) ==> s'.partitions[k] == s.partitions[k])
            && (r.Some? ==>
                  var p, q := s.partitions[cmd.key], s'.partitions[cmd.key];
                  && q.leader == cmd.leader && q.replicas == cmd.replicas && q.isr == cmd.isr
                  && q.partitionEpoch == (if p.partitionEpoch != INT32_MAX then p.partitionEpoch + 1 else -0x8000_0000)
                  && q.leaderEpoch == (if cmd.leader == p.leader then p.leaderEpoch
                                       else if p.leaderEpoch != INT32_MAX then p.leaderEpoch + 1 else -0x8000_0000))
  {
    ValidIffAssignable(s.brokers, cmd.leader, cmd.replicas, cmd.isr);
  }

  // ----- Creating a topic -----

  lemma {:induction false} NumbersCount(specs: seq<Spec>)
    requires |Numbers(specs)| == |specs|
    ensures forall i, j :: 0 <= i < j < |specs| ==> specs[i].partition != specs[j].partition
  {
    if |specs| > 0 {
      var n := |specs| - 1;
      assert Numbers(specs) == Numbers(specs[..n]) + {specs[n].partition};
      NumbersSize(specs[..n]);
      NumbersCount(specs[..n]);
      assert forall i :: 0 <= i < n ==> specs[i] == specs[..n][i] && specs[i].partition in Numbers(specs[..n]);
    }
  }

  lemma {:induction false} ContiguousIffNumbers(specs: seq<Spec>)
    ensures ContiguousSpecs(specs) <==> Numbers(specs) == Range(|specs|)
  {
    if ContiguousSpecs(specs) { ContiguousNumbers(specs); }
    if Numbers(specs) == Range(|specs|) {
      NumbersCount(specs);
      assert forall i :: 0 <= i < |specs| ==> specs[i].partition in Numbers(specs);
    }
  }

  ghost predicate Creatable(s: State, name: string, specs: seq<Spec>) {
    && name != "" && name !in s.topics && |specs| > 0 && Numbers(specs) == Range(|specs|)
    && forall i :: 0 <= i < |specs| ==> Assignable(s.brokers, specs[i].leader, specs[i].replicas, specs[i].isr)
  }

  lemma {:induction false} CreateIff(s: State, cmd: Command)
    requires cmd.CreateTopic?
    ensures Create(s, cmd).Some? <==> Creatable(s, cmd.name, cmd.specs)
  {
    ContiguousIffNumbers(cmd.specs);
    forall i | 0 <= i < |cmd.specs| {
      ValidIffAssignable(s.brokers, cmd.specs[i].leader, cmd.specs[i].replicas, cmd.specs[i].isr);
    }
  }

  predicate Created(ps: map<Key, Assignment>, topic: string, p: Spec) {
    Key(topic, p.partition) in ps
    && ps[Key(topic, p.partition)] == Assignment(p.leader, 0, 0, p.replicas, p.isr)
  }

  /** Only partitions of the topic are new or different. */
  ghost predicate OnlyTopic(ps: map<Key, Assignment>, ps': map<Key, Assignment>, topic: string) {
    forall k: Key :: k.topic != topic ==> (k in ps' <==> k in ps) && (k in ps ==> ps'[k] == ps[k])
  }

  lemma {:induction false} SpecsOnlyTopic(ps: map<Key, Assignment>, topic: string, specs: seq<Spec>)
    ensures OnlyTopic(ps, WithSpecs(ps, topic, specs), topic)
  {
    if |specs| > 0 { SpecsOnlyTopic(ps, topic, specs[..|specs| - 1]); }
  }

  lemma {:induction false} SpecsCreated(ps: map<Key, Assignment>, topic: string, specs: seq<Spec>, i: nat)
    requires i < |specs| && forall j, k :: 0 <= j < k < |specs| ==> specs[j].partition != specs[k].partition
    ensures Created(WithSpecs(ps, topic, specs), topic, specs[i])
  {
    var n := |specs| - 1;
    if i < n { SpecsCreated(ps, topic, specs[..n], i); }
  }

  /**
   A topic is created if and only if its name is new and its partitions are numbered from 0, each
   with a possible assignment. Each partition then has its assignment, at epoch 0.
   */
  lemma {:induction false} CreateOutcome(s: State, cmd: Command, index: nat, c: Cleaning)
    requires cmd.CreateTopic?
    ensures var r, s' := Accepts(s, cmd, index, c), Apply(s, cmd, index, c);
            && (r.Some? <==> Creatable(s, cmd.name, cmd.specs)) && (r.None? ==> s' == s)
            && (r.Some? ==>
                  && s'.brokers == s.brokers && s'.topics == s.topics + {cmd.name}
                  && OnlyTopic(s.partitions, s'.partitions, cmd.name)
                  && forall i :: 0 <= i < |cmd.specs| ==> Created(s'.partitions, cmd.name, cmd.specs[i]))
  {
    CreateIff(s, cmd);
    SpecsOnlyTopic(s.partitions, cmd.name, cmd.specs);
    if Create(s, cmd).Some? {
      forall i | 0 <= i < |cmd.specs| ensures Created(Create(s, cmd).value.partitions, cmd.name, cmd.specs[i]) {
        SpecsCreated(s.partitions, cmd.name, cmd.specs, i);
      }
    }
  }

  // ----- Brokers -----

  lemma {:induction false} CleanedAt(es: seq<Endpoint>, c: Cleaning)
    ensures |Cleaned(es, c)| == |es| && forall i :: 0 <= i < |es| ==> Cleaned(es, c)[i] == c.Apply(es[i])
  {
    if |es| > 0 { CleanedAt(es[..|es| - 1], c); }
  }

  lemma {:induction false} NormalizedPermutes(es: seq<Endpoint>, c: Cleaning)
    ensures Normalized(es, c).Some? ==> multiset(Normalized(es, c).value) == multiset(Cleaned(es, c))
  {
    if |es| > 0 {
      var n := |es| - 1;
      NormalizedPermutes(es[..n], c);
      if Normalized(es[..n], c).Some? { InsertPermutes(Normalized(es[..n], c).value, c.Apply(es[n])); }
    }
  }

  /** Once cleaned, each endpoint has a name, a host, a port and no encryption, and no two have the same name. */
  ghost predicate Acceptable(es: seq<Endpoint>, c: Cleaning) {
    && (forall i :: 0 <= i < |es| ==>
          var e := c.Apply(es[i]); e.name != "" && e.host != "" && e.port != 0 && e.protocol == 0)
    && (forall i, j :: 0 <= i < j < |es| ==> c.Apply(es[i]).name != c.Apply(es[j]).name)
  }

  lemma {:induction false} NormalizedIff(es: seq<Endpoint>, c: Cleaning)
    ensures Normalized(es, c).Some? <==> Acceptable(es, c)
  {
    if |es| > 0 {
      var n := |es| - 1;
      NormalizedIff(es[..n], c);
      assert forall i :: 0 <= i < n ==> es[..n][i] == es[i];
      if Normalized(es[..n], c).Some? { NameTaken(es[..n], c, c.Apply(es[n]).name); }
    }
  }

  lemma {:induction false} NameTaken(es: seq<Endpoint>, c: Cleaning, name: string)
    requires Normalized(es, c).Some?
    ensures HasName(Normalized(es, c).value, name) <==> exists i :: 0 <= i < |es| && c.Apply(es[i]).name == name
  {
    NormalizedPermutes(es, c);
    CleanedAt(es, c);
    var r, d := Normalized(es, c).value, Cleaned(es, c);
    if HasName(r, name) {
      var i :| 0 <= i < |r| && r[i].name == name;
      assert r[i] in multiset(r);
      assert r[i] in d;
    }
    if i :| 0 <= i < |es| && c.Apply(es[i]).name == name {
      assert d[i] in multiset(d);
      assert d[i] in r;
    }
  }

  /**
   A broker is registered if its id is free, or its earlier incarnation is fenced and in no active
   partition. It is fenced at first, and its epoch is the position of the command. Registering the
   same incarnation again changes nothing.
   */
  lemma {:induction false} RegisterOutcome(s: State, cmd: Command, index: nat, c: Cleaning)
    requires cmd.RegisterBroker?
    ensures var r, s' := Accepts(s, cmd, index, c), Apply(s, cmd, index, c);
            var again := cmd.id in s.brokers && s.brokers[cmd.id].incarnation == cmd.incarnation;
            && (r.Some? <==>
                && cmd.id >= 0 && cmd.incarnation != "" && index > 0
                && |cmd.endpoints| > 0 && Acceptable(cmd.endpoints, c)
                && (again ==> Normalized(cmd.endpoints, c) == Some(s.brokers[cmd.id].endpoints))
                && (cmd.id in s.brokers && !again ==>
                      && s.brokers[cmd.id].fenced
                      && forall k :: k in s.partitions ==>
                                       s.partitions[k].leader != cmd.id && cmd.id !in s.partitions[k].isr))
            && s'.topics == s.topics && s'.partitions == s.partitions
            && (forall id :: id in s.brokers && id != cmd.id ==> id in s'.brokers && s'.brokers[id] == s.brokers[id])
            && (forall id :: id in s'.brokers && id != cmd.id ==> id in s.brokers)
            && (r.None? || again ==> s' == s)
            && (r.Some? && !again ==>
                  && cmd.id in s'.brokers
                  && var b := s'.brokers[cmd.id];
                  && b.id == cmd.id && b.incarnation == cmd.incarnation && b.epoch == index && b.fenced
                  && multiset(b.endpoints) == multiset(Cleaned(cmd.endpoints, c)))
  {
    NormalizedIff(cmd.endpoints, c);
    NormalizedPermutes(cmd.endpoints, c);
  }

  /** A broker is unfenced by naming its current epoch, and nothing else changes. */
  lemma {:induction false} UnfenceOutcome(s: State, cmd: Command, index: nat, c: Cleaning)
    requires cmd.UnfenceBroker?
    ensures var r, s' := Accepts(s, cmd, index, c), Apply(s, cmd, index, c);
            && (r.Some? <==> cmd.broker in s.brokers && s.brokers[cmd.broker].epoch == cmd.brokerEpoch)
            && s'.topics == s.topics && s'.partitions == s.partitions && s'.brokers.Keys == s.brokers.Keys
            && (forall id :: id in s.brokers && (id != cmd.broker || r.None?) ==> s'.brokers[id] == s.brokers[id])
            && (r.Some? ==>
                  var b, b' := s.brokers[cmd.broker], s'.brokers[cmd.broker];
                  !b'.fenced && b'.(fenced := b.fenced) == b)
  {
  }

  // ----- Incarnations of a broker -----

  /** `b` is a later record of the same broker: within an epoch it is only ever unfenced. */
  ghost predicate Since(a: Broker, b: Broker) {
    a.epoch <= b.epoch && (a.epoch == b.epoch ==> b == a || b == a.(fenced := false))
  }

  lemma {:induction false} SinceTransitive(a: Broker, b: Broker, c: Broker)
    requires Since(a, b) && Since(b, c)
    ensures Since(a, c)
  {
  }

  ghost predicate EpochsBelow(s: State, n: nat) {
    forall id :: id in s.brokers ==> s.brokers[id].epoch < n
  }

  lemma {:induction false} ApplySince(s: State, cmd: Command, index: nat, c: Cleaning, id: int)
    requires EpochsBelow(s, index) && id in s.brokers
    ensures id in Apply(s, cmd, index, c).brokers
    ensures Since(s.brokers[id], Apply(s, cmd, index, c).brokers[id])
  {
  }

  lemma {:induction false} ApplyBelow(s: State, cmd: Command, index: nat, c: Cleaning)
    requires EpochsBelow(s, index)
    ensures EpochsBelow(Apply(s, cmd, index, c), index + 1)
  {
  }

  lemma {:induction false} RunBelow(cmds: seq<Command>, index: nat, c: Cleaning)
    ensures EpochsBelow(Run(EMPTY, cmds, index, c), index + |cmds|)
  {
    if |cmds| > 0 {
      var n := |cmds| - 1;
      RunBelow(cmds[..n], index, c);
      ApplyBelow(Run(EMPTY, cmds[..n], index, c), cmds[n], index + n, c);
    }
  }

  /**
   Over every command log, brokers never disappear, and one broker epoch is one incarnation with
   one list of endpoints that, once unfenced, stays so.
   */
  lemma {:induction false} OneIncarnationPerEpoch(cmds: seq<Command>, index: nat, c: Cleaning, i: nat, j: nat, id: int)
    requires i <= j <= |cmds| && id in Run(EMPTY, cmds[..i], index, c).brokers
    ensures id in Run(EMPTY, cmds[..j], index, c).brokers
    ensures Since(Run(EMPTY, cmds[..i], index, c).brokers[id], Run(EMPTY, cmds[..j], index, c).brokers[id])
    decreases j
  {
    if i < j {
      OneIncarnationPerEpoch(cmds, index, c, i, j - 1, id);
      RunBelow(cmds[..j - 1], index, c);
      assert cmds[..j][..j - 1] == cmds[..j - 1];
      var s := Run(EMPTY, cmds[..j - 1], index, c);
      ApplySince(s, cmds[j - 1], index + j - 1, c, id);
      SinceTransitive(Run(EMPTY, cmds[..i], index, c).brokers[id], s.brokers[id],
                      Apply(s, cmds[j - 1], index + j - 1, c).brokers[id]);
    }
  }

  /** So an unfencing that was meant for an earlier incarnation of a broker is refused. */
  lemma {:induction false} LateUnfenceIsRefused(cmds: seq<Command>, index: nat, c: Cleaning, i: nat, j: nat,
                                                cmd: Command)
    requires i <= j <= |cmds| && cmd.UnfenceBroker? && cmd.broker in Run(EMPTY, cmds[..i], index, c).brokers
    requires Run(EMPTY, cmds[..i], index, c).brokers[cmd.broker].epoch == cmd.brokerEpoch
    ensures cmd.broker in Run(EMPTY, cmds[..j], index, c).brokers
    ensures var s, t := Run(EMPTY, cmds[..i], index, c), Run(EMPTY, cmds[..j], index, c);
            s.brokers[cmd.broker].incarnation != t.brokers[cmd.broker].incarnation ==>
              Accepts(t, cmd, index + j, c).None?
  {
    OneIncarnationPerEpoch(cmds, index, c, i, j, cmd.broker);
  }
}
