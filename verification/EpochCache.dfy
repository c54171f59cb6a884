/**
 The leader-epoch cache: which leader epoch wrote which range of offsets.

 The values the cache computes are specified on plain sequences of entries; the class at
 the end changes its entry list in place, entry by entry, and is proved to compute those
 values.
 */
module EpochCache {
  import opened Batches

  datatype Entry = Entry(epoch: int, start: nat)

  datatype EpochEnd = EpochEnd(epoch: int, end: nat)

  /** Non-negative epochs, and both epochs and start offsets strictly increasing. */
  ghost predicate Increasing(es: seq<Entry>) {
    |es| > 0 ==>
      var n := |es| - 1;
      && es[n].epoch >= 0
      && (n > 0 ==> es[n - 1].epoch < es[n].epoch && es[n - 1].start < es[n].start)
      && Increasing(es[..n])
  }

  lemma {:induction false} IncreasingAt(es: seq<Entry>, i: nat, j: nat)
    requires Increasing(es) && i <= j < |es|
    ensures 0 <= es[i].epoch <= es[j].epoch && es[i].start <= es[j].start
    ensures i < j ==> es[i].epoch < es[j].epoch && es[i].start < es[j].start
  {
    var n := |es| - 1;
    if j < n {
      IncreasingAt(es[..n], i, j);
    } else if i < n {
      IncreasingAt(es[..n], i, n - 1);
    } else if n > 0 {
      IncreasingAt(es[..n], n - 1, n - 1);
    }
  }

  lemma {:induction false} PrefixIncreasing(es: seq<Entry>, p: seq<Entry>)
    requires Increasing(es) && p <= es
    ensures Increasing(p)
    decreases |es|
  {
    if |p| == |es| {
      assert p == es;
    } else {
      PrefixIncreasing(es[..|es| - 1], p);
    }
  }

  lemma {:induction false} AppendIncreasing(es: seq<Entry>, e: Entry)
    requires Increasing(es) && e.epoch >= 0
    requires |es| > 0 ==> es[|es| - 1].epoch < e.epoch && es[|es| - 1].start < e.start
    ensures Increasing(es + [e])
  {
    assert (es + [e])[..|es|] == es;
  }

  // ----- Assign -----

  /** The entries before the first one at or past `epoch` or `start`. */
  function Below(es: seq<Entry>, epoch: int, start: nat): (r: seq<Entry>)
    ensures r <= es
    ensures forall i :: 0 <= i < |r| ==> r[i].epoch < epoch && r[i].start < start
    ensures |r| < |es| ==> es[|r|].epoch >= epoch || es[|r|].start >= start
  {
    if |es| == 0 || es[0].epoch >= epoch || es[0].start >= start then []
    else
      var t := Below(es[1..], epoch, start);
      assert t <= es[1..];
      [es[0]] + t
  }

  lemma {:induction false} BelowIs(es: seq<Entry>, epoch: int, start: nat, cut: nat)
    requires Increasing(es) && cut <= |es|
    requires cut > 0 ==> es[cut - 1].epoch < epoch && es[cut - 1].start < start
    requires cut < |es| ==> es[cut].epoch >= epoch || es[cut].start >= start
    ensures Below(es, epoch, start) == es[..cut]
  {
    var n := |Below(es, epoch, start)|;
    assert Below(es, epoch, start) == es[..n];
    if n < cut { IncreasingAt(es, n, cut - 1); }
  }

  /** The cache already records `epoch` as current at or before `start`. */
  predicate AlreadyAssigned(es: seq<Entry>, epoch: int, start: nat) {
    |es| > 0 && es[|es| - 1].epoch == epoch && es[|es| - 1].start <= start
  }

  function Assigned(es: seq<Entry>, epoch: int, start: nat): seq<Entry> {
    if AlreadyAssigned(es, epoch, start) then es
    else Below(es, epoch, start) + [Entry(epoch, start)]
  }

  lemma {:induction false} AssignedIs(es: seq<Entry>, epoch: int, start: nat, cut: nat)
    requires Increasing(es) && cut <= |es| && !AlreadyAssigned(es, epoch, start)
    requires cut > 0 ==> es[cut - 1].epoch < epoch && es[cut - 1].start < start
    requires cut < |es| ==> es[cut].epoch >= epoch || es[cut].start >= start
    ensures Assigned(es, epoch, start) == es[..cut] + [Entry(epoch, start)]
  {
    BelowIs(es, epoch, start, cut);
  }

  /** An entry past the end of the cache is appended. */
  lemma {:induction false} AssignPastEnd(es: seq<Entry>, t: Entry)
    requires Increasing(es) && |es| > 0
    requires es[|es| - 1].epoch < t.epoch && es[|es| - 1].start < t.start
    ensures Assigned(es, t.epoch, t.start) == es + [t]
    ensures Increasing(es + [t])
  {
    AssignedIs(es, t.epoch, t.start, |es|);
    assert es[..|es|] == es;
    AppendIncreasing(es, t);
  }

  /** Assigning keeps the cache ordered, whatever the arguments, and makes `epoch` the latest. */
  lemma {:induction false} AssignedIncreasing(es: seq<Entry>, epoch: int, start: nat)
    requires Increasing(es) && epoch >= 0
    ensures Increasing(Assigned(es, epoch, start))
    ensures Latest(Assigned(es, epoch, start)) == Some(epoch)
  {
    if !AlreadyAssigned(es, epoch, start) {
      PrefixIncreasing(es, Below(es, epoch, start));
      AppendIncreasing(Below(es, epoch, start), Entry(epoch, start));
    }
  }

  /** Exactly the entries with both a smaller epoch and a smaller start survive an assignment. */
  lemma {:induction false} AssignedKeeps(es: seq<Entry>, epoch: int, start: nat, e: Entry)
    requires Increasing(es) && !AlreadyAssigned(es, epoch, start)
    ensures e in Assigned(es, epoch, start)
       <==> e == Entry(epoch, start) || (e in es && e.epoch < epoch && e.start < start)
  {
    var b := Below(es, epoch, start);
    if e in es && e.epoch < epoch && e.start < start {
      var i :| 0 <= i < |es| && es[i] == e;
      if |b| <= i { IncreasingAt(es, |b|, i); }
      assert b[i] == e;
      assert (b + [Entry(epoch, start)])[i] == e;
    }
    if e in b {
      var i :| 0 <= i < |b| && b[i] == e;
      assert es[i] == e;
    }
    var a := b + [Entry(epoch, start)];
    assert a[|b|] == Entry(epoch, start);
    assert forall i :: 0 <= i < |a| ==> a[i] == if i < |b| then b[i] else Entry(epoch, start);
  }

  // ----- Truncation -----

  /** The leading entries that start below `o`. */
  function StartsBelow(es: seq<Entry>, o: nat): (r: seq<Entry>)
    ensures r <= es
    ensures forall i :: 0 <= i < |r| ==> r[i].start < o
    ensures |r| < |es| ==> es[|r|].start >= o
  {
    if |es| == 0 || es[0].start >= o then []
    else
      var t := StartsBelow(es[1..], o);
      assert t <= es[1..];
      [es[0]] + t
  }

  /** A prefix that ends exactly where starts reach `o` is the truncation at `o`. */
  lemma {:induction false} StartsBelowUnique(es: seq<Entry>, o: nat, p: seq<Entry>)
    requires Increasing(es) && p <= es
    requires |p| > 0 ==> p[|p| - 1].start < o
    requires |p| < |es| ==> es[|p|].start >= o
    ensures StartsBelow(es, o) == p
  {
    var n := |StartsBelow(es, o)|;
    assert StartsBelow(es, o) == es[..n] && p == es[..|p|];
    if n < |p| { IncreasingAt(es, n, |p| - 1); }
  }

  // ----- Queries -----

  function Latest(es: seq<Entry>): Option<int> {
    if |es| == 0 then None else Some(es[|es| - 1].epoch)
  }

  /** Number of leading entries whose epoch is at or below `e`. */
  function EpochsUpTo(es: seq<Entry>, e: int): (k: nat)
    ensures k <= |es|
    ensures forall i :: 0 <= i < k ==> es[i].epoch <= e
    ensures k < |es| ==> es[k].epoch > e
  {
    if |es| == 0 || es[0].epoch > e then 0 else 1 + EpochsUpTo(es[1..], e)
  }

  /** Where the range of entry `i` ends in a log whose end offset is `leo`. */
  function EntryEnd(es: seq<Entry>, i: nat, leo: nat): nat
    requires i < |es|
  {
    if i + 1 < |es| then es[i + 1].start else leo
  }

  /**
   The largest cached epoch at or below `e` and where it ends; `e` itself, ending where the
   cache begins, when every cached epoch is later; nothing when `e` is not yet known.
   */
  function EndOffsetFor(es: seq<Entry>, e: int, leo: nat): Option<EpochEnd> {
    if |es| == 0 || e < 0 || e > es[|es| - 1].epoch then None
    else
      var k := EpochsUpTo(es, e);
      if k == 0 then Some(EpochEnd(e, es[0].start))
      else Some(EpochEnd(es[k - 1].epoch, EntryEnd(es, k - 1, leo)))
  }

  /** An answer either ends where the cache begins, or is the range of one entry. */
  lemma {:induction false} EndOffsetForIs(es: seq<Entry>, e: int, leo: nat) returns (j: nat)
    requires Increasing(es) && EndOffsetFor(es, e, leo).Some?
    ensures |es| > 0 && j <= |es|
    ensures j == |es| ==> EndOffsetFor(es, e, leo).value == EpochEnd(e, es[0].start)
    ensures j < |es| ==> EndOffsetFor(es, e, leo).value == EpochEnd(es[j].epoch, EntryEnd(es, j, leo))
    ensures j < |es| ==> es[j].epoch <= e && (j + 1 < |es| ==> e < es[j + 1].epoch)
    ensures j == |es| ==> e < es[0].epoch
  {
    var k := EpochsUpTo(es, e);
    j := if k == 0 then |es| else k - 1;
  }

  /** Number of leading entries that start at or below `o`. */
  function StartsUpTo(es: seq<Entry>, o: nat): (k: nat)
    ensures k <= |es|
    ensures forall i :: 0 <= i < k ==> es[i].start <= o
    ensures k < |es| ==> es[k].start > o
  {
    if |es| == 0 || es[0].start > o then 0 else 1 + StartsUpTo(es[1..], o)
  }

  /** The epoch that wrote offset `o`. */
  function EpochForOffset(es: seq<Entry>, o: nat): Option<int> {
    var k := StartsUpTo(es, o);
    if k == 0 then None else Some(es[k - 1].epoch)
  }

  /**
   The two queries are dual: an offset was written by an epoch at or below `e` exactly when
   it lies before the end offset reported for `e`.
   */
  lemma {:induction false} QueriesDual(es: seq<Entry>, o: nat, e: int, leo: nat)
    requires Increasing(es) && |es| > 0
    requires es[0].start <= o < leo
    requires 0 <= e <= es[|es| - 1].epoch
    ensures EpochForOffset(es, o).Some? && EndOffsetFor(es, e, leo).Some?
    ensures EpochForOffset(es, o).value <= e <==> o < EndOffsetFor(es, e, leo).value.end
  {
    var s, k := StartsUpTo(es, o), EpochsUpTo(es, e);
    if s <= k {
      assert es[s - 1].epoch <= e;
      if s < k { IncreasingAt(es, s, k - 1); }
      if s < k && k < |es| { IncreasingAt(es, s, k); }
    } else {
      IncreasingAt(es, k, s - 1);
    }
  }

  lemma {:induction false} EpochsUpToEntry(es: seq<Entry>, j: nat)
    requires Increasing(es) && j < |es|
    ensures EpochsUpTo(es, es[j].epoch) == j + 1
  {
    var k := EpochsUpTo(es, es[j].epoch);
    if k <= j {
      IncreasingAt(es, k, j);
    } else if j + 1 < k {
      IncreasingAt(es, j, k - 1);
    }
  }

  /** Asking again for the epoch of an answer gives the same answer. */
  lemma {:induction false} EndOffsetForIdempotent(es: seq<Entry>, e: int, leo: nat)
    requires Increasing(es) && EndOffsetFor(es, e, leo).Some?
    ensures EndOffsetFor(es, EndOffsetFor(es, e, leo).value.epoch, leo) == EndOffsetFor(es, e, leo)
  {
    var k := EpochsUpTo(es, e);
    if k > 0 {
      EpochsUpToEntry(es, k - 1);
      IncreasingAt(es, k - 1, |es| - 1);
    }
  }

  // ----- The cache object -----

  class LeaderEpochCache {
    var entries: seq<Entry>

    ghost predicate Valid()
      reads this
    {
      Increasing(entries)
    }

    constructor ()
      ensures Valid() && entries == []
    {
      entries := [];
    }

    /** Rejects a negative epoch; otherwise records that `epoch` starts at `start`. */
    method Assign(epoch: int, start: nat) returns (changed: bool, ok: bool)
      requires Valid()
      modifies this
      ensures Valid()
      ensures ok == (epoch >= 0)
      ensures entries == if ok then Assigned(old(entries), epoch, start) else old(entries)
      ensures changed == (ok && !AlreadyAssigned(old(entries), epoch, start))
    {
      if epoch < 0 { return false, false; }
      AssignedIncreasing(entries, epoch, start);
      var n := |entries|;
      if n == 0 {
        entries := [Entry(epoch, start)];
        return true, true;
      }
      var last := entries[n - 1];
      if epoch == last.epoch && start >= last.start { return false, true; }
      if epoch > last.epoch && start > last.start {
        AssignPastEnd(entries, Entry(epoch, start));
        entries := entries + [Entry(epoch, start)];
        return true, true;
      }
      var cut := 0;
      while cut < |entries|
        invariant 0 <= cut <= |entries|
        invariant cut > 0 ==> entries[cut - 1].epoch < epoch && entries[cut - 1].start < start
      {
        var e := entries[cut];
        if e.epoch >= epoch || e.start >= start { break; }
        cut := cut + 1;
      }
      AssignedIs(entries, epoch, start, cut);
      entries := entries[..cut] + [Entry(epoch, start)];
      return true, true;
    }

    /** Drops every entry that starts at or past `offset`. */
    method TruncateFromEnd(offset: nat) returns (changed: bool)
      requires Valid()
      modifies this
      ensures Valid()
      ensures entries == StartsBelow(old(entries), offset)
      ensures changed <==> entries != old(entries)
    {
      ghost var p := StartsBelow(entries, offset);
      PrefixIncreasing(entries, p);
      var i := 0;
      while i < |entries| && entries[i].start < offset
        invariant 0 <= i <= |p|
      {
        i := i + 1;
      }
      assert entries[..i] == p;
      if i == |entries| { return false; }
      entries := entries[..i];
      return true;
    }

    /** Drops every entry that starts past `offset`. */
    method TruncateAfter(offset: nat) returns (changed: bool)
      requires Valid()
      modifies this
      ensures Valid()
      ensures entries == StartsBelow(old(entries), offset + 1)
      ensures changed <==> entries != old(entries)
    {
      PrefixIncreasing(entries, StartsBelow(entries, offset + 1));
      var i := 0;
      while i < |entries| && entries[i].start <= offset
        invariant 0 <= i <= |StartsBelow(entries, offset + 1)|
      {
        i := i + 1;
      }
      assert entries[..i] == StartsBelow(entries, offset + 1);
      if i == |entries| { return false; }
      entries := entries[..i];
      return true;
    }

    method EpochOf(offset: nat) returns (r: Option<int>)
      requires Valid()
      ensures r == EpochForOffset(entries, offset)
    {
      r := None;
      var i := 0;
      while i < |entries|
        invariant 0 <= i <= StartsUpTo(entries, offset)
        invariant r == if i == 0 then None else Some(entries[i - 1].epoch)
      {
        if entries[i].start > offset { break; }
        r := Some(entries[i].epoch);
        i := i + 1;
      }
    }

    method EndOffset(requested: int, leo: nat) returns (r: Option<EpochEnd>)
      requires Valid()
      ensures r == EndOffsetFor(entries, requested, leo)
    {
      if |entries| == 0 || requested < 0 { return None; }
      var first := entries[0];
      IncreasingAt(entries, 0, |entries| - 1);
      if requested < first.epoch { return Some(EpochEnd(requested, first.start)); }
      var last := entries[|entries| - 1];
      ghost var k := EpochsUpTo(entries, requested);
      if requested == last.epoch {
        EpochsUpToEntry(entries, |entries| - 1);
        return Some(EpochEnd(last.epoch, leo));
      }
      if requested > last.epoch { return None; }
      var i := |entries| - 1;
      while i >= 0
        invariant k - 1 <= i < |entries|
      {
        if entries[i].epoch <= requested {
          if k < i + 1 { IncreasingAt(entries, k, i); }
          return Some(EpochEnd(entries[i].epoch, entries[i + 1].start));
        }
        i := i - 1;
      }
      assert false;
      r := None;
    }
  }
}
