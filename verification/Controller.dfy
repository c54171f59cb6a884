/**
 The controller's replicated state: registered brokers, topics and partition assignments,
 and what each committed command does to them.
 */
module Controller {
  import opened Batches

  datatype Endpoint = Endpoint(name: string, host: string, port: nat, protocol: int)

  datatype Broker = Broker(id: int, incarnation: string, epoch: nat, endpoints: seq<Endpoint>, fenced: bool)

  datatype Key = Key(topic: string, partition: int)

  datatype Assignment = Assignment(leader: int, leaderEpoch: int, partitionEpoch: int, replicas: seq<int>,
                                   isr: seq<int>)

  datatype State = State(brokers: map<int, Broker>, topics: set<string>, partitions: map<Key, Assignment>)

  const EMPTY := State(map[], {}, map[])

  datatype Spec = Spec(partition: int, leader: int, replicas: seq<int>, isr: seq<int>)

  datatype Command =
    | RegisterBroker(id: int, incarnation: string, endpoints: seq<Endpoint>)
    | UnfenceBroker(broker: int, brokerEpoch: nat)
    | CreateTopic(name: string, specs: seq<Spec>)
    | UpdatePartition(key: Key, expectedEpoch: int, leader: int, replicas: seq<int>, isr: seq<int>, allowUnclean: bool)

  /** How names and hosts are cleaned up before they are stored: trimmed, and names upper-cased. */
  datatype Cleaning = Cleaning(name: string -> string, host: string -> string) {
    function Apply(e: Endpoint): Endpoint { e.(name := name(e.name), host := host(e.host)) }

    ghost predicate Idempotent() {
      && (forall s: string :: name(name(s)) == name(s))
      && (forall s: string :: host(host(s)) == host(s))
    }
  }

  const INT32_MAX := 0x7FFF_FFFF

  /** 32-bit increment. */
  function Inc32(x: int): int { if x == INT32_MAX then -INT32_MAX - 1 else x + 1 }

  // ----- Endpoints -----

  /** Byte-wise string order. */
  predicate Less(a: string, b: string) {
    if |b| == 0 then false
    else if |a| == 0 then true
    else a[0] < b[0] || (a[0] == b[0] && Less(a[1..], b[1..]))
  }

  lemma {:induction false} LessTotal(a: string, b: string)
    ensures a == b || Less(a, b) || Less(b, a)
    ensures !(Less(a, b) && Less(b, a)) && !Less(a, a)
    decreases |a|
  {
    if |a| > 0 {
      LessTotal(a[1..], a[1..]);
      if |b| > 0 {
        LessTotal(a[1..], b[1..]);
        assert a == [a[0]] + a[1..] && b == [b[0]] + b[1..];
      }
    }
  }

  predicate Complete(e: Endpoint) { e.name != "" && e.host != "" && e.port > 0 && e.protocol == 0 }

  predicate Ordered(es: seq<Endpoint>) {
    |es| > 1 ==> Less(es[|es| - 2].name, es[|es| - 1].name) && Ordered(es[..|es| - 1])
  }

  /** Cleaned, complete, and strictly ordered by name: so without duplicate names. */
  ghost predicate Normal(es: seq<Endpoint>, c: Cleaning) {
    && |es| > 0 && Ordered(es)
    && forall i :: 0 <= i < |es| ==> Complete(es[i]) && c.Apply(es[i]) == es[i]
  }

  function Insert(es: seq<Endpoint>, e: Endpoint): seq<Endpoint> {
    if |es| == 0 || Less(es[|es| - 1].name, e.name) then es + [e]
    else Insert(es[..|es| - 1], e) + [es[|es| - 1]]
  }

  predicate HasName(es: seq<Endpoint>, name: string) {
    exists i :: 0 <= i < |es| && es[i].name == name
  }

  /** Each endpoint cleaned and put in its place; fails on an incomplete, unsupported or duplicate one. */
  function Normalized(es: seq<Endpoint>, c: Cleaning): Option<seq<Endpoint>> {
    if |es| == 0 then Some([])
    else
      var n := |es| - 1;
      var e, init := c.Apply(es[n]), Normalized(es[..n], c);
      if init.None? || !Complete(e) || HasName(init.value, e.name) then None
      else Some(Insert(init.value, e))
  }

  lemma {:induction false} InsertOrdered(es: seq<Endpoint>, e: Endpoint)
    requires Ordered(es) && !HasName(es, e.name)
    ensures |Insert(es, e)| == |es| + 1 && Ordered(Insert(es, e))
    ensures var last := Insert(es, e)[|es|]; last == e || (|es| > 0 && last == es[|es| - 1])
    ensures forall x :: x in Insert(es, e) <==> x == e || x in es
  {
    if |es| > 0 {
      var n := |es| - 1;
      assert es == es[..n] + [es[n]];
      if Less(es[n].name, e.name) {
        assert (es + [e])[..|es|] == es;
      } else {
        LessTotal(es[n].name, e.name);
        InsertOrdered(es[..n], e);
        assert Insert(es, e)[..|es|] == Insert(es[..n], e);
      }
    }
  }

  function Cleaned(es: seq<Endpoint>, c: Cleaning): seq<Endpoint> {
    if |es| == 0 then [] else Cleaned(es[..|es| - 1], c) + [c.Apply(es[|es| - 1])]
  }

  lemma {:induction false} InsertPermutes(es: seq<Endpoint>, e: Endpoint)
    ensures multiset(Insert(es, e)) == multiset(es) + multiset{e}
  {
    if |es| > 0 && !Less(es[|es| - 1].name, e.name) {
      InsertPermutes(es[..|es| - 1], e);
      assert es == es[..|es| - 1] + [es[|es| - 1]];
    }
  }

  /** What normalisation returns is normal, and a permutation of the cleaned endpoints. */
  lemma {:induction false} NormalizedIsNormal(es: seq<Endpoint>, c: Cleaning)
    requires c.Idempotent() && Normalized(es, c).Some?
    ensures var r := Normalized(es, c).value;
            && |r| == |es| && Ordered(r) && multiset(r) == multiset(Cleaned(es, c))
            && forall x :: x in r ==> Complete(x) && c.Apply(x) == x
  {
    if |es| > 0 {
      NormalizedIsNormal(es[..|es| - 1], c);
      InsertPermutes(Normalized(es[..|es| - 1], c).value, c.Apply(es[|es| - 1]));
      InsertOrdered(Normalized(es[..|es| - 1], c).value, c.Apply(es[|es| - 1]));
    }
  }

  lemma {:induction false} OrderedNames(es: seq<Endpoint>, i: nat)
    requires Ordered(es) && i < |es| - 1
    ensures Less(es[i].name, es[|es| - 1].name)
    decreases |es|
  {
    var n := |es| - 1;
    if i < n - 1 {
      OrderedNames(es[..n], i);
      LessTransitive(es[i].name, es[n - 1].name, es[n].name);
    }
  }

  lemma {:induction false} LessTransitive(a: string, b: string, c: string)
    requires Less(a, b) && Less(b, c)
    ensures Less(a, c)
    decreases |a|
  {
    if |a| > 0 && a[0] == b[0] && b[0] == c[0] { LessTransitive(a[1..], b[1..], c[1..]); }
  }

  /** Normal endpoints are left as they are. */
  lemma {:induction false} NormalIsFixed(es: seq<Endpoint>, c: Cleaning)
    requires Ordered(es) && forall i :: 0 <= i < |es| ==> Complete(es[i]) && c.Apply(es[i]) == es[i]
    ensures Normalized(es, c) == Some(es)
  {
    if |es| > 0 {
      var n := |es| - 1;
      NormalIsFixed(es[..n], c);
      forall i | 0 <= i < n ensures es[i].name != es[n].name {
        OrderedNames(es, i);
        LessTotal(es[i].name, es[n].name);
      }
      assert es == es[..n] + [es[n]];
    }
  }

  // ----- Assignments -----

  predicate NoDuplicates(s: seq<int>) { forall i, j :: 0 <= i < j < |s| ==> s[i] != s[j] }

  /** Distinct registered replicas, and a leader among distinct in-sync replicas that are all active. */
  predicate ValidSpec(brokers: map<int, Broker>, leader: int, replicas: seq<int>, isr: seq<int>) {
    && NoDuplicates(replicas) && NoDuplicates(isr) && leader in isr
    && (forall r :: r in replicas ==> r in brokers)
    && (forall m :: m in isr ==> m in replicas && m in brokers && !brokers[m].fenced)
  }

  ghost predicate Active(partitions: map<Key, Assignment>, id: int) {
    exists k :: k in partitions && (partitions[k].leader == id || id in partitions[k].isr)
  }

  // ----- Commands -----

  ghost function Register(s: State, cmd: Command, index: nat, c: Cleaning): Option<State>
    requires cmd.RegisterBroker?
  {
    var es := Normalized(cmd.endpoints, c);
    if cmd.id < 0 || cmd.incarnation == "" || index == 0 || |cmd.endpoints| == 0 || es.None? then None
    else if cmd.id in s.brokers && s.brokers[cmd.id].incarnation == cmd.incarnation then
      if s.brokers[cmd.id].endpoints == es.value then Some(s) else None
    else if cmd.id in s.brokers && (!s.brokers[cmd.id].fenced || Active(s.partitions, cmd.id)) then None
    else Some(s.(brokers := s.brokers[cmd.id := Broker(cmd.id, cmd.incarnation, index, es.value, true)]))
  }

  function Unfence(s: State, cmd: Command): Option<State>
    requires cmd.UnfenceBroker?
  {
    if cmd.broker !in s.brokers || s.brokers[cmd.broker].epoch != cmd.brokerEpoch then None
    else Some(s.(brokers := s.brokers[cmd.broker := s.brokers[cmd.broker].(fenced := false)]))
  }

  function Numbers(specs: seq<Spec>): set<int> { set i | 0 <= i < |specs| :: specs[i].partition }

  /** No partition number is negative or repeated, and all below their count occur. */
  predicate ContiguousSpecs(specs: seq<Spec>) {
    && (forall i, j :: 0 <= i < j < |specs| ==> specs[i].partition != specs[j].partition)
    && (forall i :: 0 <= i < |specs| ==> specs[i].partition >= 0)
    && (forall p :: 0 <= p < |specs| ==> p in Numbers(specs))
  }

  predicate SpecsOk(s: State, specs: seq<Spec>) {
    && ContiguousSpecs(specs)
    && forall i :: 0 <= i < |specs| ==> ValidSpec(s.brokers, specs[i].leader, specs[i].replicas, specs[i].isr)
  }

  function WithSpecs(partitions: map<Key, Assignment>, topic: string, specs: seq<Spec>): map<Key, Assignment> {
    if |specs| == 0 then partitions
    else
      var n := |specs| - 1;
      var p := specs[n];
      WithSpecs(partitions, topic, specs[..n])[Key(topic, p.partition) := Assignment(p.leader, 0, 0, p.replicas, p.isr)]
  }

  function Create(s: State, cmd: Command): Option<State>
    requires cmd.CreateTopic?
  {
    if cmd.name == "" || |cmd.specs| == 0 || cmd.name in s.topics || !SpecsOk(s, cmd.specs) then None
    else Some(s.(topics := s.topics + {cmd.name}, partitions := WithSpecs(s.partitions, cmd.name, cmd.specs)))
  }

  function Update(s: State, cmd: Command): Option<State>
    requires cmd.UpdatePartition?
  {
    if cmd.key !in s.partitions || cmd.expectedEpoch != s.partitions[cmd.key].partitionEpoch then None
    else if !ValidSpec(s.brokers, cmd.leader, cmd.replicas, cmd.isr) then None
    else
      var p := s.partitions[cmd.key];
      var changed := cmd.leader != p.leader;
      if changed && cmd.leader !in p.isr && !cmd.allowUnclean then None
      else
        var epoch := if changed then Inc32(p.leaderEpoch) else p.leaderEpoch;
        Some(s.(partitions := s.partitions[cmd.key :=
                  Assignment(cmd.leader, epoch, Inc32(p.partitionEpoch), cmd.replicas, cmd.isr)]))
  }

  /** What the command at log position `index` makes of the state; nothing when it is rejected. */
  ghost function Accepts(s: State, cmd: Command, index: nat, c: Cleaning): Option<State> {
    match cmd
    case RegisterBroker(_, _, _) => Register(s, cmd, index, c)
    case UnfenceBroker(_, _) => Unfence(s, cmd)
    case CreateTopic(_, _) => Create(s, cmd)
    case UpdatePartition(_, _, _, _, _, _) => Update(s, cmd)
  }

  ghost function Apply(s: State, cmd: Command, index: nat, c: Cleaning): State {
    var r := Accepts(s, cmd, index, c);
    if r.Some? then r.value else s
  }

  /** The state after a command log whose first command is at position `index`. */
  ghost function Run(s: State, cmds: seq<Command>, index: nat, c: Cleaning): State {
    if |cmds| == 0 then s
    else
      var n := |cmds| - 1;
      Apply(Run(s, cmds[..n], index, c), cmds[n], index + n, c)
  }
}
