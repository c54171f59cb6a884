/**
 Zigzag varints as records use them: 64-bit integers in groups of seven bits, the smallest
 group first.
 */
module Varints {
  import opened Batches

  const TWO_TO_64: int := 0x1_0000_0000_0000_0000

  /** Values that still fit when `i` groups of seven bits were read. */
  function Bound(i: nat): (n: nat)
    requires i <= 9
    ensures n >= if i == 9 then 2 else 256
    decreases 9 - i
  {
    if i == 9 then 2 else 128 * Bound(i + 1)
  }

  function ZigZag(x: int): nat { if x >= 0 then 2 * x else -2 * x - 1 }

  function UnZigZag(u: nat): int { if u % 2 == 0 then u / 2 else -(u / 2) - 1 }

  function Groups(u: nat): (r: seq<Byte>)
    ensures |r| >= 1
  {
    if u < 128 then [u] else [u % 128 + 128] + Groups(u / 128)
  }

  function Varint(x: int): seq<Byte> { Groups(ZigZag(x)) }

  datatype Read = Read(value: nat, size: nat)

  /** Reads groups; a 64-bit value has at most ten, of which the last holds one bit. */
  function UnGroups(d: seq<Byte>, i: nat): (r: Option<Read>)
    ensures r.Some? ==> 0 < r.value.size <= |d|
  {
    if |d| == 0 || i >= 10 then None
    else if d[0] < 128 then (if i == 9 && d[0] > 1 then None else Some(Read(d[0], 1)))
    else
      var r := UnGroups(d[1..], i + 1);
      if r.None? then None else Some(Read(d[0] - 128 + 128 * r.value.value, r.value.size + 1))
  }

  /** What was written is read back, whatever follows. */
  lemma {:induction false} GroupsRoundTrip(u: nat, i: nat, rest: seq<Byte>)
    requires i <= 9 && u < Bound(i)
    ensures UnGroups(Groups(u) + rest, i) == Some(Read(u, |Groups(u)|))
    decreases u
  {
    var d := Groups(u) + rest;
    if u < 128 {
      assert d[0] == u;
    } else {
      GroupsRoundTrip(u / 128, i + 1, rest);
      assert d[1..] == Groups(u / 128) + rest;
    }
  }

  /** What groups of seven bits stand for, the smallest first. */
  function LittleEndian(b: seq<Byte>): nat {
    if |b| == 0 then 0 else b[0] % 128 + 128 * LittleEndian(b[1..])
  }

  /** The groups stand for the number; all but the last have the high bit; and there is no group too many. */
  lemma {:induction false} GroupsAre(u: nat)
    ensures var b := Groups(u);
            && LittleEndian(b) == u && (forall i :: 0 <= i < |b| ==> (b[i] >= 128 <==> i < |b| - 1))
            && (|b| > 1 ==> b[|b| - 1] > 0)
    decreases u
  {
    if u >= 128 {
      GroupsAre(u / 128);
      assert Groups(u)[1..] == Groups(u / 128);
    }
  }

  /** Zigzag order is 0, -1, 1, -2, 2 and so on. */
  lemma {:induction false} ZigZagOrder(x: int)
    requires x >= 0
    ensures ZigZag(0) == 0 && ZigZag(-x - 1) == ZigZag(x) + 1 && ZigZag(x + 1) == ZigZag(x) + 2
  {
  }

  /** The first `n` bytes of `d` are the groups of one number. */
  ghost predicate OneNumber(d: seq<Byte>, n: nat) {
    0 < n <= |d| && d[n - 1] < 128 && forall i :: 0 <= i < n - 1 ==> d[i] >= 128
  }

  /** How many numbers fit in the groups that are left when `i` were read; none are left after ten. */
  function Left(i: nat): nat { if i <= 9 then Bound(i) else 1 }

  /** Groups are read if and only if they end within ten and their number fits; they are read as that number. */
  lemma {:induction false} ReadsIff(d: seq<Byte>, i: nat, n: nat)
    requires i <= 10
    ensures UnGroups(d, i).Some? && UnGroups(d, i).value.size == n <==>
            OneNumber(d, n) && n <= 10 - i && LittleEndian(d[..n]) < Left(i)
    ensures UnGroups(d, i).Some? && UnGroups(d, i).value.size == n ==>
              UnGroups(d, i).value.value == LittleEndian(d[..n])
    decreases 10 - i
  {
    if |d| > 0 && i < 10 {
      if d[0] < 128 {
        assert d[..1][0] == d[0] && d[..1][1..] == [];
      } else if n > 0 && n <= |d| {
        ReadsIff(d[1..], i + 1, n - 1);
        assert d[..n][0] == d[0] && d[..n][1..] == d[1..][..n - 1];
      }
    }
  }

  predicate Int64(x: int) { -TWO_TO_64 <= 2 * x < TWO_TO_64 }

  lemma {:induction false} ZigZagRoundTrip(x: int)
    requires Int64(x)
    ensures UnZigZag(ZigZag(x)) == x && ZigZag(x) < TWO_TO_64
  {
  }

  lemma {:induction false} BoundIs64()
    ensures Bound(0) == TWO_TO_64
  {
    assert Bound(5) == 128 * 128 * 128 * 128 * 2;
  }

  datatype Parsed<T> = Parsed(value: T, rest: seq<Byte>)

  function ReadVarint(d: seq<Byte>): Option<Parsed<int>> {
    var r := UnGroups(d, 0);
    if r.None? then None else Some(Parsed(UnZigZag(r.value.value), d[r.value.size..]))
  }

  lemma {:induction false} VarintRoundTrip(x: int, rest: seq<Byte>)
    requires Int64(x)
    ensures ReadVarint(Varint(x) + rest) == Some(Parsed(x, rest))
  {
    ZigZagRoundTrip(x);
    BoundIs64();
    GroupsRoundTrip(ZigZag(x), 0, rest);
    assert (Varint(x) + rest)[|Varint(x)|..] == rest;
  }

  method VarintSize(x: int) returns (size: nat)
    ensures size == |Varint(x)|
  {
    var u := ZigZag(x);
    size := 1;
    while u >= 128
      invariant size + |Groups(u)| == |Varint(x)| + 1
      decreases u
    {
      u := u / 128;
      size := size + 1;
    }
  }
}
