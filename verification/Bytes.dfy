/** Byte strings, their lexicographic order, big-endian numbers, and the range that
    covers a key prefix (src/storage/engine.rs). */
module Bytes {
  import opened Basics

  type Byte = b: int | 0 <= b < 256

  type Key = seq<Byte>

  const TWO_8 := 0x100
  const TWO_16 := 0x1_0000
  const TWO_24 := 0x100_0000
  const TWO_31 := 0x8000_0000
  const TWO_32 := 0x1_0000_0000
  const TWO_64 := 0x1_0000_0000_0000_0000

  // ------------------------------------------------------ big-endian numbers

  function U32(n: nat): (r: seq<Byte>)
    requires n < TWO_32
    ensures |r| == 4
  {
    [n / TWO_24, n / TWO_16 % TWO_8, n / TWO_8 % TWO_8, n % TWO_8]
  }

  function U32Value(b: seq<Byte>): (n: nat)
    requires |b| == 4
    ensures n < TWO_32
  {
    b[0] * TWO_24 + b[1] * TWO_16 + b[2] * TWO_8 + b[3]
  }

  lemma U32RoundTrip(n: nat)
    requires n < TWO_32
    ensures U32Value(U32(n)) == n
  {
    var a, b, c := n / TWO_8, n / TWO_16, n / TWO_24;
    assert n == a * TWO_8 + n % TWO_8;
    assert a == b * TWO_8 + a % TWO_8 by { assert b == a / TWO_8; }
    assert b == c * TWO_8 + b % TWO_8 by { assert c == b / TWO_8; }
  }

  function U64(n: nat): (r: seq<Byte>)
    requires n < TWO_64
    ensures |r| == 8
  {
    U32(n / TWO_32) + U32(n % TWO_32)
  }

  // -------------------------------------------------- lexicographic order

  predicate Less(a: Key, b: Key)
    decreases |a|
  {
    if b == [] then false
    else if a == [] then true
    else a[0] < b[0] || (a[0] == b[0] && Less(a[1..], b[1..]))
  }

  lemma {:induction false} LessTotal(a: Key, b: Key)
    ensures Less(a, b) || Less(b, a) || a == b
    ensures !(Less(a, b) && Less(b, a)) && !Less(a, a)
    decreases |a|
  {
    if a != [] {
      LessTotal(a[1..], a[1..]);
      if b != [] {
        LessTotal(a[1..], b[1..]);
        if a[0] == b[0] && a[1..] == b[1..] { assert a == [a[0]] + a[1..] == b; }
      }
    }
  }

  lemma {:induction false} LessTransitive(a: Key, b: Key, c: Key)
    requires Less(a, b) && Less(b, c)
    ensures Less(a, c)
    decreases |a|
  {
    if a != [] && a[0] == b[0] == c[0] { LessTransitive(a[1..], b[1..], c[1..]); }
  }

  /** A common prefix does not matter for the order. */
  lemma {:induction false} LessAfter(p: Key, a: Key, b: Key)
    ensures Less(p + a, p + b) <==> Less(a, b)
    decreases |p|
  {
    if p == [] {
      assert p + a == a && p + b == b;
    } else {
      assert (p + a)[1..] == p[1..] + a && (p + b)[1..] == p[1..] + b;
      LessAfter(p[1..], a, b);
    }
  }

  lemma U32Order(m: nat, n: nat)
    requires m < TWO_32 && n < TWO_32
    ensures Less(U32(m), U32(n)) <==> m < n
    ensures U32(m) == U32(n) <==> m == n
  {
    U32RoundTrip(m);
    U32RoundTrip(n);
    LessFour(U32(m), U32(n));
  }

  lemma LessFour(a: seq<Byte>, b: seq<Byte>)
    requires |a| == |b| == 4
    ensures Less(a, b) <==> U32Value(a) < U32Value(b)
  {
    assert a[1..][1..] == a[2..] && a[2..][1..] == a[3..] && a[3..][1..] == [];
    assert b[1..][1..] == b[2..] && b[2..][1..] == b[3..] && b[3..][1..] == [];
    assert Less(a[3..], b[3..]) <==> a[3] < b[3];
    assert Less(a[2..], b[2..]) <==> a[2] < b[2] || (a[2] == b[2] && a[3] < b[3]);
    assert Less(a[1..], b[1..]) <==> a[1] < b[1] || (a[1] == b[1] && Less(a[2..], b[2..]));
    assert Less(a, b) <==> a[0] < b[0] || (a[0] == b[0] && Less(a[1..], b[1..]));
  }

  lemma {:induction false} LessJoined(a: Key, b: Key, c: Key, d: Key)
    requires |a| == |b|
    ensures Less(a + c, b + d) <==> Less(a, b) || (a == b && Less(c, d))
    decreases |a|
  {
    if a == [] {
      assert a + c == c && b + d == d;
    } else {
      assert (a + c)[1..] == a[1..] + c && (b + d)[1..] == b[1..] + d;
      LessJoined(a[1..], b[1..], c, d);
      if a[0] == b[0] && a[1..] == b[1..] { assert a == [a[0]] + a[1..] == b; }
    }
  }

  /** Big-endian numbers of one width sort as the numbers do. */
  lemma U64Order(m: nat, n: nat)
    requires m < TWO_64 && n < TWO_64
    ensures Less(U64(m), U64(n)) <==> m < n
    ensures U64(m) == U64(n) <==> m == n
  {
    var mh, ml, nh, nl := m / TWO_32, m % TWO_32, n / TWO_32, n % TWO_32;
    LessJoined(U32(mh), U32(nh), U32(ml), U32(nl));
    U32Order(mh, nh);
    U32Order(ml, nl);
    if U64(m) == U64(n) {
      assert U32(mh) == U64(m)[..4] && U32(nh) == U64(n)[..4];
      assert U32(ml) == U64(m)[4..] && U32(nl) == U64(n)[4..];
    }
  }

  // ------------------------------------------------------------ key ranges

  datatype Upper = Excluded(key: Key) | Included(key: Key) | Unbounded

  /** All ranges in use have an inclusive lower bound. */
  datatype Range = Range(lower: Key, upper: Upper) {

    predicate Holds(k: Key) {
      && !Less(k, lower)
      && match upper
         case Excluded(u) => Less(k, u)
         case Included(u) => !Less(u, k)
         case Unbounded => true
    }
  }

  /** The position of the last byte that can be incremented, if there is one. */
  function LastRoom(p: Key): (r: Option<nat>)
    ensures r.Some? ==> r.value < |p| && p[r.value] != 0xff && forall i :: r.value < i < |p| ==> p[i] == 0xff
    ensures r.None? ==> forall i :: 0 <= i < |p| ==> p[i] == 0xff
    decreases |p|
  {
    if p == [] then None
    else if p[|p| - 1] != 0xff then Some(|p| - 1)
    else LastRoom(p[..|p| - 1])
  }

  function PrefixRange(p: Key): Range {
    Range(p, match LastRoom(p)
             case Some(i) => Excluded(p[..i] + [p[i] + 1])
             case None => Unbounded)
  }

  /** Everything that is not before a run of 0xff bytes starts with that run. */
  lemma {:induction false} AboveFull(p: Key, k: Key)
    requires forall i :: 0 <= i < |p| ==> p[i] == 0xff
    ensures !Less(k, p) <==> p <= k
    decreases |p|
  {
    if p != [] && k != [] {
      AboveFull(p[1..], k[1..]);
      assert p <= k <==> p[0] == k[0] && p[1..] <= k[1..] by {
        if p[0] == k[0] && p[1..] <= k[1..] { assert p == [p[0]] + p[1..]; assert k == [k[0]] + k[1..]; }
      }
    }
  }

  lemma {:induction false} BetweenBounds(p: Key, k: Key, i: nat)
    requires i < |p| && p[i] != 0xff && forall j :: i < j < |p| ==> p[j] == 0xff
    ensures !Less(k, p) && Less(k, p[..i] + [p[i] + 1]) <==> p <= k
    decreases i
  {
    var u := p[..i] + [p[i] + 1];
    if k != [] {
      assert p <= k <==> p[0] == k[0] && p[1..] <= k[1..] by {
        if p[0] == k[0] && p[1..] <= k[1..] { assert p == [p[0]] + p[1..]; assert k == [k[0]] + k[1..]; }
      }
      if i == 0 {
        AboveFull(p[1..], k[1..]);
        assert u[1..] == [];
      } else {
        BetweenBounds(p[1..], k[1..], i - 1);
        assert u[1..] == p[1..][..i - 1] + [p[1..][i - 1] + 1];
      }
    }
  }

  /** The range holds exactly the keys that start with the prefix. */
  lemma PrefixRangeIsPrefix(p: Key, k: Key)
    ensures PrefixRange(p).Holds(k) <==> p <= k
  {
    match LastRoom(p)
    case Some(i) => BetweenBounds(p, k, i);
    case None => AboveFull(p, k);
  }

  // ---------------------------------------------------------- sorted keys

  predicate Ascending(ks: seq<Key>) {
    forall i, j :: 0 <= i < j < |ks| ==> Less(ks[i], ks[j])
  }

  /** The least key of a set. */
  lemma {:induction false} LeastExists(s: set<Key>) returns (k: Key)
    requires s != {}
    ensures k in s && forall x :: x in s && x != k ==> Less(k, x)
    decreases |s|
  {
    k :| k in s;
    if s != {k} {
      var l := LeastExists(s - {k});
      LessTotal(k, l);
      if Less(l, k) { k := l; }
      else {
        forall x | x in s && x != k ensures Less(k, x) {
          if x != l { LessTransitive(k, l, x); }
        }
      }
    }
  }

  ghost function Least(s: set<Key>): (k: Key)
    requires s != {}
    ensures k in s && forall x :: x in s && x != k ==> Less(k, x)
  {
    assert exists k :: k in s && forall x :: x in s && x != k ==> Less(k, x) by {
      var k := LeastExists(s);
    }
    var k :| k in s && forall x :: x in s && x != k ==> Less(k, x);
    k
  }

  /** The keys of a set in order. */
  ghost function Sorted(s: set<Key>): (ks: seq<Key>)
    ensures Ascending(ks) && (forall k :: k in ks <==> k in s) && |ks| == |s|
    decreases |s|
  {
    if s == {} then []
    else
      var k := Least(s);
      var rest := Sorted(s - {k});
      assert forall j :: 0 <= j < |rest| ==> rest[j] in rest && Less(k, rest[j]);
      [k] + rest
  }

  /** There is only one way to put a set in order. */
  lemma {:induction false} SortedUnique(a: seq<Key>, b: seq<Key>)
    requires Ascending(a) && Ascending(b) && forall k :: k in a <==> k in b
    ensures a == b
    decreases |a|
  {
    assert b != [] ==> b[0] in b;
    if a != [] {
      assert a[0] in b;
      HeadIsLeast(a, b);
      forall k ensures k in a[1..] <==> k in b[1..] {
        TailMembers(a, k);
        TailMembers(b, k);
      }
      SortedUnique(a[1..], b[1..]);
      assert a == [a[0]] + a[1..] && b == [b[0]] + b[1..];
    }
  }

  lemma HeadIsLeast(a: seq<Key>, b: seq<Key>)
    requires Ascending(a) && Ascending(b) && a != [] && b != [] && a[0] in b && b[0] in a
    ensures a[0] == b[0]
  {
    LessTotal(a[0], b[0]);
  }

  lemma TailMembers(a: seq<Key>, k: Key)
    requires a != [] && Ascending(a)
    ensures k in a[1..] <==> k in a && k != a[0]
  {
    if k in a {
      var i :| 0 <= i < |a| && a[i] == k;
      LessTotal(k, k);
      if i > 0 { assert a[1..][i - 1] == k; }
    }
    if k in a[1..] {
      var i :| 0 <= i < |a| - 1 && a[1..][i] == k;
      LessTotal(a[0], a[i + 1]);
      assert a[i + 1] == k;
    }
  }
}
