/**
 Controller snapshots: a state listed in order, what restoring a list accepts, whatever its
 order, and why a state has only one snapshot.
 */
module Snapshots {
  import opened Batches
  import opened Controller
  import opened ControllerEffects
  import opened ControllerSafety

  const SNAPSHOT_VERSION := 2

  datatype Row = Row(key: Key, value: Assignment)

  datatype Snapshot = Snapshot(version: int, brokers: seq<Broker>, topics: seq<string>, partitions: seq<Row>)

  // ----- Restoring -----

  function LoadBrokers(bs: seq<Broker>, c: Cleaning): Option<map<int, Broker>> {
    if |bs| == 0 then Some(map[])
    else
      var n := |bs| - 1;
      var b, init := bs[n], LoadBrokers(bs[..n], c);
      if init.None? || b.id < 0 || b.incarnation == "" || b.epoch == 0 || b.id in init.value then None
      else
        var es := Normalized(b.endpoints, c);
        if |b.endpoints| == 0 || es.None? then None
        else Some(init.value[b.id := b.(endpoints := es.value)])
  }

  function LoadTopics(ts: seq<string>): Option<set<string>> {
    if |ts| == 0 then Some({})
    else
      var n := |ts| - 1;
      var init := LoadTopics(ts[..n]);
      if init.None? || ts[n] == "" || ts[n] in init.value then None else Some(init.value + {ts[n]})
  }

  predicate RowOk(r: Row, brokers: map<int, Broker>, topics: set<string>) {
    && r.key.partition >= 0 && r.key.topic in topics && r.key.topic != ""
    && r.value.leaderEpoch >= 0 && r.value.partitionEpoch >= 0
    && ValidSpec(brokers, r.value.leader, r.value.replicas, r.value.isr)
  }

  function LoadPartitions(rs: seq<Row>, brokers: map<int, Broker>, topics: set<string>): Option<map<Key, Assignment>> {
    if |rs| == 0 then Some(map[])
    else
      var n := |rs| - 1;
      var init := LoadPartitions(rs[..n], brokers, topics);
      if init.None? || !RowOk(rs[n], brokers, topics) || rs[n].key in init.value then None
      else Some(init.value[rs[n].key := rs[n].value])
  }

  function KeysOf(ps: map<Key, Assignment>, topic: string): set<Key> { set k | k in ps && k.topic == topic }

  /** As many partitions as there are, counted from 0. */
  predicate Contiguous(ps: map<Key, Assignment>, topic: string) {
    var n := |KeysOf(ps, topic)|;
    n > 0 && forall i :: 0 <= i < n ==> Key(topic, i) in ps
  }

  function FromSnapshot(d: Snapshot, c: Cleaning): Option<State> {
    if d.version != SNAPSHOT_VERSION then None
    else
      var brokers, topics := LoadBrokers(d.brokers, c), LoadTopics(d.topics);
      if brokers.None? || topics.None? then None
      else
        var ps := LoadPartitions(d.partitions, brokers.value, topics.value);
        if ps.None? || exists t :: t in topics.value && !Contiguous(ps.value, t) then None
        else Some(State(brokers.value, topics.value, ps.value))
  }

  // ----- Listing -----

  function BrokerMap(bs: seq<Broker>): map<int, Broker> {
    if |bs| == 0 then map[] else BrokerMap(bs[..|bs| - 1])[bs[|bs| - 1].id := bs[|bs| - 1]]
  }

  function RowMap(rs: seq<Row>): map<Key, Assignment> {
    if |rs| == 0 then map[] else RowMap(rs[..|rs| - 1])[rs[|rs| - 1].key := rs[|rs| - 1].value]
  }

  function TopicSet(ts: seq<string>): set<string> {
    if |ts| == 0 then {} else TopicSet(ts[..|ts| - 1]) + {ts[|ts| - 1]}
  }

  predicate DistinctBrokers(bs: seq<Broker>) {
    |bs| > 0 ==> bs[|bs| - 1].id !in BrokerMap(bs[..|bs| - 1]) && DistinctBrokers(bs[..|bs| - 1])
  }

  predicate DistinctRows(rs: seq<Row>) {
    |rs| > 0 ==> rs[|rs| - 1].key !in RowMap(rs[..|rs| - 1]) && DistinctRows(rs[..|rs| - 1])
  }

  predicate DistinctTopics(ts: seq<string>) {
    |ts| > 0 ==> ts[|ts| - 1] !in TopicSet(ts[..|ts| - 1]) && DistinctTopics(ts[..|ts| - 1])
  }

  /** The snapshot lists all brokers, topics and partitions of the state, each once. */
  predicate Lists(s: State, d: Snapshot) {
    && d.version == SNAPSHOT_VERSION
    && s == State(BrokerMap(d.brokers), TopicSet(d.topics), RowMap(d.partitions))
    && DistinctBrokers(d.brokers) && DistinctTopics(d.topics) && DistinctRows(d.partitions)
  }

  // ----- Order -----

  type Order<!T> = (T, T) -> bool

  ghost predicate Strict<T(!new)>(less: Order<T>) {
    && (forall a: T, b: T :: a == b || less(a, b) || less(b, a))
    && (forall a: T, b: T :: less(a, b) ==> !less(b, a))
    && (forall a: T, b: T, c: T :: less(a, b) && less(b, c) ==> less(a, c))
  }

  ghost predicate Ascending<T>(s: seq<T>, less: Order<T>) {
    forall i, j :: 0 <= i < j < |s| ==> less(s[i], s[j])
  }

  const BY_ID: Order<int> := (a, b) => a < b

  const BY_NAME: Order<string> := (a, b) => Less(a, b)

  const BY_KEY: Order<Key> :=
    (a: Key, b: Key) => if a.topic != b.topic then Less(a.topic, b.topic) else a.partition < b.partition

  lemma {:induction false} NamesStrict()
    ensures Strict(BY_NAME)
  {
    forall a: string, b: string
      ensures (a == b || BY_NAME(a, b) || BY_NAME(b, a)) && !(BY_NAME(a, b) && BY_NAME(b, a))
    {
      LessTotal(a, b);
    }
    forall a: string, b: string, c: string | BY_NAME(a, b) && BY_NAME(b, c) ensures BY_NAME(a, c) {
      LessTransitive(a, b, c);
    }
  }

  lemma {:induction false} KeysStrict()
    ensures Strict(BY_KEY)
  {
    forall a: Key, b: Key ensures (a == b || BY_KEY(a, b) || BY_KEY(b, a)) && !(BY_KEY(a, b) && BY_KEY(b, a)) {
      LessTotal(a.topic, b.topic);
    }
    forall a: Key, b: Key, c: Key | BY_KEY(a, b) && BY_KEY(b, c) ensures BY_KEY(a, c) {
      LessTotal(a.topic, c.topic);
      LessTotal(a.topic, b.topic);
      if a.topic != b.topic && b.topic != c.topic { LessTransitive(a.topic, b.topic, c.topic); }
    }
  }

  lemma {:induction false} EmptyTogether<T(!new)>(a: seq<T>, b: seq<T>)
    requires forall x :: x in a <==> x in b
    ensures |a| == 0 <==> |b| == 0
  {
    if |a| > 0 { assert a[0] in b; }
    if |b| > 0 { assert b[0] in a; }
  }

  /** There is one ascending list of given elements. */
  lemma {:induction false} AscendingUnique<T(!new)>(a: seq<T>, b: seq<T>, less: Order<T>)
    requires Strict(less) && Ascending(a, less) && Ascending(b, less) && forall x :: x in a <==> x in b
    ensures a == b
  {
    EmptyTogether(a, b);
    if |a| > 0 {
      var n, m := |a| - 1, |b| - 1;
      assert a[n] in b && b[m] in a;
      assert a[n] == b[m];
      forall x ensures x in a[..n] <==> x in b[..m] { InitOf(a, x, less); InitOf(b, x, less); }
      AscendingUnique(a[..n], b[..m], less);
      assert a == a[..n] + [a[n]] && b == b[..m] + [b[m]];
    }
  }

  lemma {:induction false} InitOf<T(!new)>(s: seq<T>, x: T, less: Order<T>)
    requires Strict(less) && Ascending(s, less) && |s| > 0
    ensures x in s[..|s| - 1] <==> x in s && x != s[|s| - 1]
  {
    var n := |s| - 1;
    if x in s && x != s[n] {
      var i :| 0 <= i < |s| && s[i] == x;
      assert s[..n][i] == x;
    }
  }

  function Ids(bs: seq<Broker>): (r: seq<int>)
    ensures |r| == |bs| && forall i :: 0 <= i < |bs| ==> r[i] == bs[i].id
  {
    seq(|bs|, i requires 0 <= i < |bs| => bs[i].id)
  }

  function Keys(rs: seq<Row>): (r: seq<Key>)
    ensures |r| == |rs| && forall i :: 0 <= i < |rs| ==> r[i] == rs[i].key
  {
    seq(|rs|, i requires 0 <= i < |rs| => rs[i].key)
  }

  /** Brokers by id, topics by name, partitions by topic and number. */
  ghost predicate InOrder(d: Snapshot) {
    Ascending(Ids(d.brokers), BY_ID) && Ascending(d.topics, BY_NAME) && Ascending(Keys(d.partitions), BY_KEY)
  }

  lemma {:induction false} BrokerListed(bs: seq<Broker>)
    requires DistinctBrokers(bs)
    ensures forall i :: 0 <= i < |bs| ==> bs[i].id in BrokerMap(bs) && BrokerMap(bs)[bs[i].id] == bs[i]
    ensures forall id :: id in Ids(bs) <==> id in BrokerMap(bs)
  {
    if |bs| > 0 {
      var n := |bs| - 1;
      BrokerListed(bs[..n]);
      assert forall i :: 0 <= i < n ==> bs[..n][i] == bs[i];
      assert Ids(bs) == Ids(bs[..n]) + [bs[n].id];
    }
  }

  lemma {:induction false} RowListed(rs: seq<Row>)
    requires DistinctRows(rs)
    ensures forall i :: 0 <= i < |rs| ==> rs[i].key in RowMap(rs) && RowMap(rs)[rs[i].key] == rs[i].value
    ensures forall k :: k in Keys(rs) <==> k in RowMap(rs)
  {
    if |rs| > 0 {
      var n := |rs| - 1;
      RowListed(rs[..n]);
      assert forall i :: 0 <= i < n ==> rs[..n][i] == rs[i];
      assert Keys(rs) == Keys(rs[..n]) + [rs[n].key];
    }
  }

  lemma {:induction false} TopicListed(ts: seq<string>)
    ensures forall t :: t in ts <==> t in TopicSet(ts)
  {
    if |ts| > 0 {
      TopicListed(ts[..|ts| - 1]);
      assert ts == ts[..|ts| - 1] + [ts[|ts| - 1]];
    }
  }

  lemma {:induction false} SameBrokers(a: seq<Broker>, b: seq<Broker>)
    requires DistinctBrokers(a) && DistinctBrokers(b) && BrokerMap(a) == BrokerMap(b)
    requires Ascending(Ids(a), BY_ID) && Ascending(Ids(b), BY_ID)
    ensures a == b
  {
    BrokerListed(a);
    BrokerListed(b);
    AscendingUnique(Ids(a), Ids(b), BY_ID);
    assert forall i :: 0 <= i < |a| ==> Ids(a)[i] == Ids(b)[i];
  }

  lemma {:induction false} SameRows(a: seq<Row>, b: seq<Row>)
    requires DistinctRows(a) && DistinctRows(b) && RowMap(a) == RowMap(b)
    requires Ascending(Keys(a), BY_KEY) && Ascending(Keys(b), BY_KEY)
    ensures a == b
  {
    RowListed(a);
    RowListed(b);
    KeysStrict();
    AscendingUnique(Keys(a), Keys(b), BY_KEY);
    assert forall i :: 0 <= i < |a| ==> Keys(a)[i] == Keys(b)[i];
  }

  /** A state has only one snapshot in order: brokers in the same state write the same one. */
  lemma {:induction false} SnapshotIsUnique(s: State, d: Snapshot, d': Snapshot)
    requires Lists(s, d) && Lists(s, d') && InOrder(d) && InOrder(d')
    ensures d == d'
  {
    SameBrokers(d.brokers, d'.brokers);
    TopicListed(d.topics);
    TopicListed(d'.topics);
    NamesStrict();
    AscendingUnique(d.topics, d'.topics, BY_NAME);
    SameRows(d.partitions, d'.partitions);
  }

  // ----- What loading accepts -----

  lemma {:induction false} LoadsBrokers(bs: seq<Broker>, c: Cleaning)
    requires DistinctBrokers(bs) && forall id :: id in BrokerMap(bs) ==> BrokerOk(id, BrokerMap(bs)[id], c)
    ensures LoadBrokers(bs, c) == Some(BrokerMap(bs))
  {
    if |bs| > 0 {
      var n := |bs| - 1;
      var m, m' := BrokerMap(bs[..n]), BrokerMap(bs);
      assert forall id :: id in m ==> id in m' && m'[id] == m[id];
      LoadsBrokers(bs[..n], c);
      assert m'[bs[n].id] == bs[n];
      LoadsOneMore(bs, c, m);
    }
  }

  lemma {:induction false} LoadsOneMore(bs: seq<Broker>, c: Cleaning, m: map<int, Broker>)
    requires |bs| > 0 && LoadBrokers(bs[..|bs| - 1], c) == Some(m)
    requires bs[|bs| - 1].id !in m && BrokerOk(bs[|bs| - 1].id, bs[|bs| - 1], c)
    ensures LoadBrokers(bs, c) == Some(m[bs[|bs| - 1].id := bs[|bs| - 1]])
  {
    NormalIsFixed(bs[|bs| - 1].endpoints, c);
  }

  lemma {:induction false} LoadedBrokersOk(bs: seq<Broker>, c: Cleaning)
    requires c.Idempotent() && LoadBrokers(bs, c).Some?
    ensures var m := LoadBrokers(bs, c).value; forall id :: id in m ==> BrokerOk(id, m[id], c)
  {
    if |bs| > 0 {
      LoadedBrokersOk(bs[..|bs| - 1], c);
      NormalizedIsNormal(bs[|bs| - 1].endpoints, c);
    }
  }

  lemma {:induction false} LoadsTopics(ts: seq<string>)
    ensures LoadTopics(ts).Some? <==> DistinctTopics(ts) && "" !in TopicSet(ts)
    ensures LoadTopics(ts).Some? ==> LoadTopics(ts).value == TopicSet(ts)
  {
    if |ts| > 0 { LoadsTopics(ts[..|ts| - 1]); }
  }

  /** Partitions load exactly when they are distinct and each is acceptable on its own. */
  lemma {:induction false} LoadsPartitions(rs: seq<Row>, brokers: map<int, Broker>, topics: set<string>)
    ensures LoadPartitions(rs, brokers, topics).Some? <==>
            DistinctRows(rs) && RowsOk(RowMap(rs), brokers, topics)
    ensures LoadPartitions(rs, brokers, topics).Some? ==> LoadPartitions(rs, brokers, topics).value == RowMap(rs)
  {
    if |rs| > 0 {
      var n := |rs| - 1;
      LoadsPartitions(rs[..n], brokers, topics);
      if DistinctRows(rs) { RowsOneMore(RowMap(rs[..n]), rs[n], brokers, topics); }
    }
  }

  predicate RowsOk(m: map<Key, Assignment>, brokers: map<int, Broker>, topics: set<string>) {
    forall k :: k in m ==> RowOk(Row(k, m[k]), brokers, topics)
  }

  lemma {:induction false} RowsOneMore(m: map<Key, Assignment>, r: Row, brokers: map<int, Broker>, topics: set<string>)
    requires r.key !in m
    ensures RowsOk(m[r.key := r.value], brokers, topics) <==> RowsOk(m, brokers, topics) && RowOk(r, brokers, topics)
  {
    var m' := m[r.key := r.value];
    assert r.key in m' && Row(r.key, m'[r.key]) == r;
    assert forall k :: k in m ==> k in m' && m'[k] == m[k];
  }

  /** A broker that restoring accepts on its own. */
  ghost predicate Loadable(b: Broker, c: Cleaning) {
    b.id >= 0 && b.incarnation != "" && b.epoch > 0 && |b.endpoints| > 0 && Acceptable(b.endpoints, c)
  }

  ghost predicate AllLoadable(bs: seq<Broker>, c: Cleaning) { forall i :: 0 <= i < |bs| ==> Loadable(bs[i], c) }

  ghost predicate DistinctIds(bs: seq<Broker>) { forall i, j :: 0 <= i < j < |bs| ==> bs[i].id != bs[j].id }

  ghost function IdSet(bs: seq<Broker>): set<int> { set i | 0 <= i < |bs| :: bs[i].id }

  lemma {:induction false} LastBroker(bs: seq<Broker>, c: Cleaning)
    requires |bs| > 0
    ensures var n := |bs| - 1;
            && IdSet(bs) == IdSet(bs[..n]) + {bs[n].id}
            && (AllLoadable(bs, c) <==> AllLoadable(bs[..n], c) && Loadable(bs[n], c))
            && (DistinctIds(bs) <==> DistinctIds(bs[..n]) && bs[n].id !in IdSet(bs[..n]))
  {
    var n := |bs| - 1;
    assert forall i :: 0 <= i < n ==> bs[..n][i] == bs[i];
    if bs[n].id in IdSet(bs[..n]) {
      var i :| 0 <= i < n && bs[..n][i].id == bs[n].id;
      assert !DistinctIds(bs);
    } else {
      assert forall i :: 0 <= i < n ==> bs[..n][i].id in IdSet(bs[..n]);
    }
  }

  lemma {:induction false} LoadStep(bs: seq<Broker>, c: Cleaning)
    requires |bs| > 0
    ensures var n, init := |bs| - 1, LoadBrokers(bs[..|bs| - 1], c);
            && (LoadBrokers(bs, c).Some? <==> init.Some? && Loadable(bs[n], c) && bs[n].id !in init.value)
            && (LoadBrokers(bs, c).Some? ==> LoadBrokers(bs, c).value.Keys == init.value.Keys + {bs[n].id})
  {
    NormalizedIff(bs[|bs| - 1].endpoints, c);
  }

  /** Brokers load exactly when their ids differ and each is acceptable on its own. */
  lemma {:induction false} LoadsBrokersIff(bs: seq<Broker>, c: Cleaning)
    ensures LoadBrokers(bs, c).Some? <==> AllLoadable(bs, c) && DistinctIds(bs)
    ensures LoadBrokers(bs, c).Some? ==> LoadBrokers(bs, c).value.Keys == IdSet(bs)
  {
    if |bs| > 0 {
      LoadsBrokersIff(bs[..|bs| - 1], c);
      LastBroker(bs, c);
      LoadStep(bs, c);
    }
  }

  /** Each is then stored under its id, unchanged but for its endpoints, which are cleaned and ordered. */
  lemma {:induction false} LoadedAs(bs: seq<Broker>, c: Cleaning, i: nat)
    requires LoadBrokers(bs, c).Some? && i < |bs|
    ensures bs[i].id in LoadBrokers(bs, c).value
    ensures var r := LoadBrokers(bs, c).value[bs[i].id];
            r == bs[i].(endpoints := r.endpoints) && multiset(r.endpoints) == multiset(Cleaned(bs[i].endpoints, c))
  {
    var n := |bs| - 1;
    if i < n { LoadedAs(bs[..n], c, i); } else { NormalizedPermutes(bs[n].endpoints, c); }
  }

  // ----- Counting partitions -----

  function KeysBelow(topic: string, n: nat): (r: set<Key>)
    ensures |r| == n && forall k :: k in r <==> k.topic == topic && 0 <= k.partition < n
  {
    if n == 0 then {} else KeysBelow(topic, n - 1) + {Key(topic, n - 1)}
  }

  lemma {:induction false} SubsetOfKeys(a: set<Key>, b: set<Key>)
    requires a <= b && |a| == |b|
    ensures a == b
  {
    assert b == a + (b - a);
  }

  /** Counting and looking up finds out whether a topic is numbered from 0. */
  lemma {:induction false} ContiguousIsNumbered(ps: map<Key, Assignment>, topic: string)
    requires forall k :: k in ps ==> k.partition >= 0
    ensures Contiguous(ps, topic) <==> exists n :: n > 0 && Numbered(ps, topic, n)
  {
    var keys := KeysOf(ps, topic);
    if Contiguous(ps, topic) {
      assert KeysBelow(topic, |keys|) <= keys;
      SubsetOfKeys(KeysBelow(topic, |keys|), keys);
      forall i ensures Key(topic, i) in ps <==> 0 <= i < |keys| {
        assert Key(topic, i) in keys <==> Key(topic, i) in KeysBelow(topic, |keys|);
      }
      assert Numbered(ps, topic, |keys|);
    }
    if n :| n > 0 && Numbered(ps, topic, n) {
      assert keys == KeysBelow(topic, n) by {
        forall k ensures k in keys <==> k in KeysBelow(topic, n) {
          assert k == Key(k.topic, k.partition);
        }
      }
    }
  }

  // ----- Round trip -----

  ghost predicate NoNegativeEpoch(s: State) {
    forall k :: k in s.partitions ==> s.partitions[k].leaderEpoch >= 0 && s.partitions[k].partitionEpoch >= 0
  }

  /** A snapshot of a sound state restores to that state, exactly when no epoch has overflowed. */
  lemma {:induction false} SnapshotRoundTrip(s: State, d: Snapshot, c: Cleaning)
    requires Inv(s, c) && Lists(s, d)
    ensures FromSnapshot(d, c) == (if NoNegativeEpoch(s) then Some(s) else None)
  {
    LoadsBrokers(d.brokers, c);
    LoadsTopics(d.topics);
    assert "" !in s.topics by { assert "" in s.topics ==> TopicOk(s, ""); }
    LoadsPartitions(d.partitions, s.brokers, s.topics);
    SoundRowsOk(s, c);
    forall t | t in s.topics ensures Contiguous(s.partitions, t) {
      assert TopicOk(s, t);
      forall k | k in s.partitions ensures k.partition >= 0 { assert PartitionOk(s, k); }
      ContiguousIsNumbered(s.partitions, t);
    }
  }

  lemma {:induction false} SoundRowsOk(s: State, c: Cleaning)
    requires Inv(s, c)
    ensures NoNegativeEpoch(s) <==> RowsOk(s.partitions, s.brokers, s.topics)
  {
    forall k | k in s.partitions
      ensures RowOk(Row(k, s.partitions[k]), s.brokers, s.topics) <==>
              s.partitions[k].leaderEpoch >= 0 && s.partitions[k].partitionEpoch >= 0
    {
      assert PartitionOk(s, k);
      assert TopicOk(s, k.topic);
    }
  }

  /** Every topic's partitions are numbered from 0. */
  ghost predicate AllNumbered(topics: set<string>, rows: map<Key, Assignment>) {
    forall t :: t in topics ==> exists n :: n > 0 && Numbered(rows, t, n)
  }

  lemma {:induction false} ContiguousIffNumbered(topics: set<string>, rows: map<Key, Assignment>)
    requires forall k :: k in rows ==> k.partition >= 0
    ensures (forall t :: t in topics ==> Contiguous(rows, t)) <==> AllNumbered(topics, rows)
  {
    forall t ensures Contiguous(rows, t) <==> exists n :: n > 0 && Numbered(rows, t, n) {
      ContiguousIsNumbered(rows, t);
    }
  }

  lemma {:induction false} PartitionsNumbered(rows: map<Key, Assignment>, brokers: map<int, Broker>,
                                              topics: set<string>)
    requires RowsOk(rows, brokers, topics)
    ensures forall k :: k in rows ==> k.partition >= 0
  {
    forall k | k in rows ensures k.partition >= 0 { assert RowOk(Row(k, rows[k]), brokers, topics); }
  }

  lemma {:induction false} LoadsAll(d: Snapshot, c: Cleaning, brokers: map<int, Broker>, topics: set<string>)
    requires LoadBrokers(d.brokers, c) == Some(brokers) && LoadTopics(d.topics) == Some(topics)
    ensures var rows := RowMap(d.partitions);
            && (FromSnapshot(d, c).Some? <==>
                && d.version == 2 && DistinctRows(d.partitions) && RowsOk(rows, brokers, topics)
                && AllNumbered(topics, rows))
            && (FromSnapshot(d, c).Some? ==> FromSnapshot(d, c).value == State(brokers, topics, rows))
  {
    LoadsPartitions(d.partitions, brokers, topics);
    if RowsOk(RowMap(d.partitions), brokers, topics) {
      PartitionsNumbered(RowMap(d.partitions), brokers, topics);
      ContiguousIffNumbered(topics, RowMap(d.partitions));
    }
  }

  /**
   A snapshot is accepted if and only if it has the current version, distinct acceptable brokers,
   distinct named topics, distinct acceptable partitions of them, and each topic's partitions are
   numbered from 0. It then is the state.
   */
  lemma {:induction false} RestoresIff(d: Snapshot, c: Cleaning)
    ensures FromSnapshot(d, c).Some? <==>
            && d.version == 2 && AllLoadable(d.brokers, c) && DistinctIds(d.brokers)
            && DistinctTopics(d.topics) && "" !in TopicSet(d.topics) && DistinctRows(d.partitions)
            && var brokers := LoadBrokers(d.brokers, c);
            brokers.Some? && RowsOk(RowMap(d.partitions), brokers.value, TopicSet(d.topics))
            && AllNumbered(TopicSet(d.topics), RowMap(d.partitions))
    ensures FromSnapshot(d, c).Some? ==>
              && LoadBrokers(d.brokers, c).Some?
              && FromSnapshot(d, c).value
                 == State(LoadBrokers(d.brokers, c).value, TopicSet(d.topics), RowMap(d.partitions))
  {
    LoadsBrokersIff(d.brokers, c);
    LoadsTopics(d.topics);
    if LoadBrokers(d.brokers, c).Some? && LoadTopics(d.topics).Some? {
      LoadsAll(d, c, LoadBrokers(d.brokers, c).value, TopicSet(d.topics));
    }
  }

  /** Whatever a restore accepts satisfies the controller's invariant. */
  lemma {:induction false} RestoredIsSound(d: Snapshot, c: Cleaning)
    requires c.Idempotent() && FromSnapshot(d, c).Some?
    ensures Inv(FromSnapshot(d, c).value, c) && NoNegativeEpoch(FromSnapshot(d, c).value)
  {
    var s := FromSnapshot(d, c).value;
    LoadedBrokersOk(d.brokers, c);
    LoadsTopics(d.topics);
    LoadsPartitions(d.partitions, s.brokers, s.topics);
    forall k | k in s.partitions ensures PartitionOk(s, k) {
      assert RowOk(Row(k, s.partitions[k]), s.brokers, s.topics);
    }
    forall t | t in s.topics ensures TopicOk(s, t) {
      forall k | k in s.partitions ensures k.partition >= 0 { assert PartitionOk(s, k); }
      ContiguousIsNumbered(s.partitions, t);
    }
  }

  lemma {:induction false} RunConcat(s: State, a: seq<Command>, b: seq<Command>, index: nat, c: Cleaning)
    ensures Run(s, a + b, index, c) == Run(Run(s, a, index, c), b, index + |a|, c)
  {
    if |b| == 0 {
      assert a + b == a;
    } else {
      var n := |b| - 1;
      RunConcat(s, a, b[..n], index, c);
      assert (a + b)[..|a| + n] == a + b[..n];
    }
  }

  /** Restoring a snapshot and replaying the rest of the log gives what replaying all of it gives. */
  lemma {:induction false} RestoreAndReplay(a: seq<Command>, b: seq<Command>, index: nat, d: Snapshot, c: Cleaning)
    requires c.Idempotent() && |a| <= INT32_MAX && Lists(Run(EMPTY, a, index, c), d)
    ensures FromSnapshot(d, c).Some?
    ensures Run(FromSnapshot(d, c).value, b, index + |a|, c) == Run(EMPTY, a + b, index, c)
  {
    RunEpochs(a, index, c);
    SnapshotRoundTrip(Run(EMPTY, a, index, c), d, c);
    RunConcat(EMPTY, a, b, index, c);
  }
}
