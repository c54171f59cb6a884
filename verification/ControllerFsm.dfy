/**
 The controller's state machine object: it checks each command with loops over its maps and
 changes them in place, or leaves them alone.
 */
module ControllerFsm {
  import opened Batches
  import opened Controller
  import opened ControllerSafety
  import opened Snapshots

  method ValidateSpec(brokers: map<int, Broker>, leader: int, replicas: seq<int>, isr: seq<int>) returns (ok: bool)
    ensures ok <==> ValidSpec(brokers, leader, replicas, isr)
  {
    var replicaSet, isrSet: set<int> := {}, {};
    var i := 0;
    while i < |replicas|
      invariant 0 <= i <= |replicas| && replicaSet == set k | 0 <= k < i :: replicas[k]
      invariant NoDuplicates(replicas[..i]) && forall k :: 0 <= k < i ==> replicas[k] in brokers
    {
      if replicas[i] in replicaSet || replicas[i] !in brokers { return false; }
      replicaSet := replicaSet + {replicas[i]};
      i := i + 1;
    }
    assert replicas[..i] == replicas;
    if leader !in replicaSet { return false; }
    i := 0;
    while i < |isr|
      invariant 0 <= i <= |isr| && isrSet == set k | 0 <= k < i :: isr[k]
      invariant NoDuplicates(isr[..i])
      invariant forall k :: 0 <= k < i ==> isr[k] in replicaSet && isr[k] in brokers && !brokers[isr[k]].fenced
    {
      assert isr[i] in isr;
      if isr[i] in isrSet || isr[i] !in replicaSet || isr[i] !in brokers || brokers[isr[i]].fenced { return false; }
      isrSet := isrSet + {isr[i]};
      i := i + 1;
    }
    assert isr[..i] == isr;
    if leader !in isrSet { return false; }
    ok := true;
  }

  method InActivePartition(partitions: map<Key, Assignment>, id: int) returns (active: bool)
    ensures active <==> Active(partitions, id)
  {
    var rest := partitions.Keys;
    while |rest| > 0
      invariant rest <= partitions.Keys
      invariant forall k :: k in partitions && k !in rest ==> partitions[k].leader != id && id !in partitions[k].isr
      decreases |rest|
    {
      var k :| k in rest;
      if partitions[k].leader == id || id in partitions[k].isr { return true; }
      rest := rest - {k};
    }
    active := false;
  }

  method NormalizeEndpoints(es: seq<Endpoint>, c: Cleaning) returns (r: Option<seq<Endpoint>>)
    ensures r == if |es| == 0 then None else Normalized(es, c)
  {
    if |es| == 0 { return None; }
    var out: seq<Endpoint> := [];
    var i := 0;
    while i < |es|
      invariant 0 <= i <= |es| && Normalized(es[..i], c) == Some(out)
    {
      assert es[..i + 1][..i] == es[..i];
      var e := c.Apply(es[i]);
      if !Complete(e) || HasName(out, e.name) {
        NormalizedFails(es, c, i + 1);
        return None;
      }
      out := Insert(out, e);
      i := i + 1;
    }
    assert es[..i] == es;
    r := Some(out);
  }

  lemma {:induction false} NormalizedFails(es: seq<Endpoint>, c: Cleaning, i: nat)
    requires i <= |es| && Normalized(es[..i], c).None?
    ensures Normalized(es, c).None?
  {
    if i == |es| {
      assert es[..i] == es;
    } else {
      assert es[..|es| - 1][..i] == es[..i];
      NormalizedFails(es[..|es| - 1], c, i);
    }
  }

  /** Checks all partitions of a new topic before anything is changed. */
  method CheckSpecs(s: State, specs: seq<Spec>) returns (ok: bool)
    ensures ok <==> SpecsOk(s, specs)
  {
    var seen: set<int> := {};
    var i := 0;
    while i < |specs|
      invariant 0 <= i <= |specs| && seen == set k | 0 <= k < i :: specs[k].partition
      invariant forall k, m :: 0 <= k < m < i ==> specs[k].partition != specs[m].partition
      invariant forall k :: 0 <= k < i ==>
                              && specs[k].partition >= 0
                              && ValidSpec(s.brokers, specs[k].leader, specs[k].replicas, specs[k].isr)
    {
      if specs[i].partition < 0 || specs[i].partition in seen { return false; }
      seen := seen + {specs[i].partition};
      ok := ValidateSpec(s.brokers, specs[i].leader, specs[i].replicas, specs[i].isr);
      if !ok { return; }
      i := i + 1;
    }
    assert seen == Numbers(specs);
    var p := 0;
    while p < |specs|
      invariant 0 <= p <= |specs| && forall q :: 0 <= q < p ==> q in seen
    {
      if p !in seen { return false; }
      p := p + 1;
    }
    ok := true;
  }

  class Fsm {
    const cleaning: Cleaning
    var brokers: map<int, Broker>
    var topics: set<string>
    var partitions: map<Key, Assignment>

    function View(): State
      reads this
    {
      State(brokers, topics, partitions)
    }

    ghost predicate Valid()
      reads this
    {
      cleaning.Idempotent() && Inv(View(), cleaning)
    }

    constructor (cleaning: Cleaning)
      requires cleaning.Idempotent()
      ensures Valid() && View() == EMPTY && this.cleaning == cleaning
    {
      this.cleaning := cleaning;
      brokers, topics, partitions := map[], {}, map[];
    }

    /** Applies the committed command at log position `index`. */
    method Apply(cmd: Command, index: nat) returns (ok: bool)
      requires Valid()
      modifies this
      ensures Valid() && ok == Accepts(old(View()), cmd, index, cleaning).Some?
      ensures View() == Controller.Apply(old(View()), cmd, index, cleaning)
    {
      ApplyKeeps(View(), cmd, index, cleaning);
      match cmd
      case RegisterBroker(_, _, _) => ok := ApplyRegister(cmd, index);
      case UnfenceBroker(id, epoch) =>
        ok := id in brokers && brokers[id].epoch == epoch;
        if ok { brokers := brokers[id := brokers[id].(fenced := false)]; }
      case CreateTopic(_, _) => ok := ApplyCreate(cmd);
      case UpdatePartition(_, _, _, _, _, _) => ok := ApplyUpdate(cmd);
    }

    method ApplyRegister(cmd: Command, index: nat) returns (ok: bool)
      requires cmd.RegisterBroker?
      modifies this
      ensures ok == Register(old(View()), cmd, index, cleaning).Some?
      ensures View() == Controller.Apply(old(View()), cmd, index, cleaning)
    {
      if cmd.id < 0 || cmd.incarnation == "" || index == 0 { return false; }
      var es := NormalizeEndpoints(cmd.endpoints, cleaning);
      if es.None? { return false; }
      if cmd.id in brokers {
        if brokers[cmd.id].incarnation == cmd.incarnation { return brokers[cmd.id].endpoints == es.value; }
        var active := InActivePartition(partitions, cmd.id);
        if !brokers[cmd.id].fenced || active { return false; }
      }
      brokers := brokers[cmd.id := Broker(cmd.id, cmd.incarnation, index, es.value, true)];
      ok := true;
    }

    method ApplyCreate(cmd: Command) returns (ok: bool)
      requires cmd.CreateTopic?
      modifies this
      ensures ok == Create(old(View()), cmd).Some?
      ensures View() == if ok then Create(old(View()), cmd).value else old(View())
    {
      if cmd.name == "" || |cmd.specs| == 0 || cmd.name in topics { return false; }
      ok := CheckSpecs(View(), cmd.specs);
      if !ok { return; }
      topics := topics + {cmd.name};
      var i := 0;
      while i < |cmd.specs|
        invariant 0 <= i <= |cmd.specs|
        invariant brokers == old(brokers) && topics == old(topics) + {cmd.name}
        invariant partitions == WithSpecs(old(partitions), cmd.name, cmd.specs[..i])
      {
        assert cmd.specs[..i + 1][..i] == cmd.specs[..i];
        var p := cmd.specs[i];
        partitions := partitions[Key(cmd.name, p.partition) := Assignment(p.leader, 0, 0, p.replicas, p.isr)];
        i := i + 1;
      }
      assert cmd.specs[..i] == cmd.specs;
    }

    method ApplyUpdate(cmd: Command) returns (ok: bool)
      requires cmd.UpdatePartition?
      modifies this
      ensures ok == Update(old(View()), cmd).Some?
      ensures View() == if ok then Update(old(View()), cmd).value else old(View())
    {
      if cmd.key !in partitions { return false; }
      var current := partitions[cmd.key];
      if cmd.expectedEpoch != current.partitionEpoch { return false; }
      ok := ValidateSpec(brokers, cmd.leader, cmd.replicas, cmd.isr);
      if !ok { return; }
      var changed := cmd.leader != current.leader;
      if changed && cmd.leader !in current.isr && !cmd.allowUnclean { return false; }
      var epoch := current.leaderEpoch;
      if changed { epoch := Inc32(epoch); }
      partitions := partitions[cmd.key :=
        Assignment(cmd.leader, epoch, Inc32(current.partitionEpoch), cmd.replicas, cmd.isr)];
    }

    /** Replaces the state by a snapshot; a snapshot that is not accepted changes nothing. */
    method Restore(d: Snapshot) returns (ok: bool)
      requires Valid()
      modifies this
      ensures Valid() && ok == FromSnapshot(d, cleaning).Some?
      ensures View() == if ok then FromSnapshot(d, cleaning).value else old(View())
    {
      var r := FromSnapshot(d, cleaning);
      if r.None? { return false; }
      RestoredIsSound(d, cleaning);
      brokers, topics, partitions := r.value.brokers, r.value.topics, r.value.partitions;
      ok := true;
    }
  }

  // ----- Taking a snapshot -----

  method Least<T(==, !new)>(s: set<T>, less: Order<T>) returns (x: T)
    requires s != {} && Strict(less)
    ensures x in s && forall y :: y in s ==> y == x || less(x, y)
  {
    x :| x in s;
    var rest := s - {x};
    while rest != {}
      invariant rest <= s && x in s && forall y :: y in s ==> y in rest || y == x || less(x, y)
      decreases |rest|
    {
      var y :| y in rest;
      if less(y, x) { x := y; }
      rest := rest - {y};
    }
  }

  /** The elements of a set in ascending order. */
  method Sorted<T(==, !new)>(s: set<T>, less: Order<T>) returns (r: seq<T>)
    requires Strict(less)
    ensures Ascending(r, less) && forall x :: x in r <==> x in s
  {
    r := [];
    var rest := s;
    while rest != {}
      invariant rest <= s && Ascending(r, less) && forall x :: x in s <==> x in r || x in rest
      invariant forall x, y :: x in r && y in rest ==> less(x, y)
      decreases |rest|
    {
      var x := Least(rest, less);
      r := r + [x];
      rest := rest - {x};
    }
  }

  lemma {:induction false} AscendingBrokers(bs: seq<Broker>)
    requires Ascending(Ids(bs), BY_ID)
    ensures DistinctBrokers(bs)
  {
    if |bs| > 0 {
      var n := |bs| - 1;
      assert Ids(bs[..n]) == Ids(bs)[..n];
      AscendingBrokers(bs[..n]);
      BrokerListed(bs[..n]);
      InitOf(Ids(bs), bs[n].id, BY_ID);
    }
  }

  lemma {:induction false} AscendingRows(rs: seq<Row>)
    requires Ascending(Keys(rs), BY_KEY) && Strict(BY_KEY)
    ensures DistinctRows(rs)
  {
    if |rs| > 0 {
      var n := |rs| - 1;
      assert Keys(rs[..n]) == Keys(rs)[..n];
      AscendingRows(rs[..n]);
      RowListed(rs[..n]);
      InitOf(Keys(rs), rs[n].key, BY_KEY);
    }
  }

  lemma {:induction false} AscendingTopics(ts: seq<string>)
    requires Ascending(ts, BY_NAME) && Strict(BY_NAME)
    ensures DistinctTopics(ts)
  {
    if |ts| > 0 {
      var n := |ts| - 1;
      AscendingTopics(ts[..n]);
      TopicListed(ts[..n]);
      InitOf(ts, ts[n], BY_NAME);
    }
  }

  lemma {:induction false} BrokersOf(m: map<int, Broker>, ids: seq<int>, bs: seq<Broker>)
    requires Ascending(ids, BY_ID) && forall id :: id in ids <==> id in m
    requires |bs| == |ids| && forall i :: 0 <= i < |ids| ==> ids[i] in m && bs[i] == m[ids[i]] && bs[i].id == ids[i]
    ensures BrokerMap(bs) == m && DistinctBrokers(bs) && Ids(bs) == ids
  {
    assert Ids(bs) == ids;
    AscendingBrokers(bs);
    BrokerListed(bs);
    forall id ensures id in BrokerMap(bs) <==> id in m { assert id in Ids(bs) <==> id in ids; }
    forall id | id in m ensures BrokerMap(bs)[id] == m[id] {
      var i :| 0 <= i < |ids| && ids[i] == id;
      assert bs[i].id == id;
    }
  }

  lemma {:induction false} RowsOf(m: map<Key, Assignment>, keys: seq<Key>, rs: seq<Row>)
    requires Ascending(keys, BY_KEY) && Strict(BY_KEY) && forall k :: k in keys <==> k in m
    requires |rs| == |keys| && forall i :: 0 <= i < |keys| ==> keys[i] in m && rs[i] == Row(keys[i], m[keys[i]])
    ensures RowMap(rs) == m && DistinctRows(rs) && Keys(rs) == keys
  {
    assert Keys(rs) == keys;
    AscendingRows(rs);
    RowListed(rs);
    forall k ensures k in RowMap(rs) <==> k in m { assert k in Keys(rs) <==> k in keys; }
    forall k | k in m ensures RowMap(rs)[k] == m[k] {
      var i :| 0 <= i < |keys| && keys[i] == k;
      assert rs[i].key == k;
    }
  }

  method ListBrokers(m: map<int, Broker>) returns (bs: seq<Broker>)
    requires forall id :: id in m ==> m[id].id == id
    ensures BrokerMap(bs) == m && DistinctBrokers(bs) && Ascending(Ids(bs), BY_ID)
  {
    var ids := Sorted(m.Keys, BY_ID);
    bs := [];
    var i := 0;
    while i < |ids|
      invariant 0 <= i <= |ids| && |bs| == i
      invariant forall k :: 0 <= k < i ==> ids[k] in m && bs[k] == m[ids[k]]
    {
      bs := bs + [m[ids[i]]];
      i := i + 1;
    }
    BrokersOf(m, ids, bs);
  }

  method ListTopics(names: set<string>) returns (ts: seq<string>)
    ensures TopicSet(ts) == names && DistinctTopics(ts) && Ascending(ts, BY_NAME)
  {
    NamesStrict();
    ts := Sorted(names, BY_NAME);
    TopicListed(ts);
    AscendingTopics(ts);
  }

  method ListRows(m: map<Key, Assignment>) returns (rs: seq<Row>)
    ensures RowMap(rs) == m && DistinctRows(rs) && Ascending(Keys(rs), BY_KEY)
  {
    KeysStrict();
    var keys := Sorted(m.Keys, BY_KEY);
    rs := [];
    var i := 0;
    while i < |keys|
      invariant 0 <= i <= |keys| && |rs| == i
      invariant forall k :: 0 <= k < i ==> keys[k] in m && rs[k] == Row(keys[k], m[keys[k]])
    {
      rs := rs + [Row(keys[i], m[keys[i]])];
      i := i + 1;
    }
    RowsOf(m, keys, rs);
  }

  /** Lists the state, each part in the order of its keys. */
  method ToSnapshot(s: State) returns (d: Snapshot)
    requires forall id :: id in s.brokers ==> s.brokers[id].id == id
    ensures Lists(s, d) && InOrder(d)
  {
    var bs := ListBrokers(s.brokers);
    var ts := ListTopics(s.topics);
    var rs := ListRows(s.partitions);
    d := Snapshot(SNAPSHOT_VERSION, bs, ts, rs);
  }
}
