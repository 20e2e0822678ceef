/** The file format of the BitCask engine (src/storage/bitcask.rs): what a sequence of
    records means, how it is laid out in bytes, and what a reader recovers from any
    file, in particular from one that was cut short. */
module Records {
  import opened Basics
  import opened Bytes

  type Value = seq<Byte>

  /** A value of None is a tombstone. */
  datatype Record = Record(key: Key, value: Option<Value>)

  predicate Fits(r: Record) {
    |r.key| < TWO_32 && (r.value.Some? ==> |r.value.value| < TWO_31)
  }

  predicate AllFit(rs: seq<Record>) {
    forall i :: 0 <= i < |rs| ==> Fits(rs[i])
  }

  function Body(r: Record): Value {
    if r.value.Some? then r.value.value else []
  }

  function Size(r: Record): nat {
    8 + |r.key| + |Body(r)|
  }

  function TotalSize(rs: seq<Record>): nat {
    if rs == [] then 0 else TotalSize(rs[..|rs| - 1]) + Size(rs[|rs| - 1])
  }

  /** The length of a tombstone is written as -1. */
  function Encode(r: Record): (b: seq<Byte>)
    requires Fits(r)
    ensures |b| == Size(r)
  {
    U32(|r.key|) + (if r.value.Some? then U32(|r.value.value|) else [0xff, 0xff, 0xff, 0xff]) + r.key + Body(r)
  }

  function EncodeAll(rs: seq<Record>): seq<Byte>
    requires AllFit(rs)
  {
    if rs == [] then [] else EncodeAll(rs[..|rs| - 1]) + Encode(rs[|rs| - 1])
  }

  function BigEndian(b: seq<Byte>): nat {
    if b == [] then 0 else BigEndian(b[..|b| - 1]) * 256 + b[|b| - 1]
  }

  /** What lies where in a record: four bytes of key length and four of value length, the
      most significant first, all ones for a tombstone; then the key, then the value. */
  lemma Layout(r: Record)
    requires Fits(r)
    ensures var b := Encode(r);
      && |b| >= 8 + |r.key| && BigEndian(b[..4]) == |r.key| && b[8..8 + |r.key|] == r.key
      && (match r.value
          case Some(v) => BigEndian(b[4..8]) == |v| && b[8 + |r.key|..] == v
          case None => b[4..8] == [0xff, 0xff, 0xff, 0xff] && |b| == 8 + |r.key|)
  {
    var b := Encode(r);
    var lengths := U32(|r.key|) + if r.value.Some? then U32(|r.value.value|) else [0xff, 0xff, 0xff, 0xff];
    assert b == lengths + r.key + Body(r);
    assert b[..4] == U32(|r.key|) && b[4..8] == lengths[4..8];
    FourBytes(|r.key|);
    if r.value.Some? {
      FourBytes(|r.value.value|);
      assert lengths[4..8] == U32(|r.value.value|);
    }
  }

  lemma FourBytes(n: nat)
    requires n < TWO_32
    ensures BigEndian(U32(n)) == n
  {
    var b := U32(n);
    U32RoundTrip(n);
    assert b[..3][..2] == b[..2] && b[..2][..1] == b[..1] && b[..1][..0] == [];
    assert BigEndian(b[..1]) == b[0] as int;
    assert BigEndian(b[..2]) == BigEndian(b[..1]) * 256 + b[1];
    assert BigEndian(b[..3]) == BigEndian(b[..2]) * 256 + b[2];
  }

  // -------------------------------------------------------------- reading

  datatype Location = Location(offset: nat, length: nat)

  datatype Parsed = Parsed(key: Key, at: Option<Location>, next: nat)

  /** The record that starts at an offset, or None if the file ends before it does.
      Every negative value length reads as a tombstone. */
  function ParseAt(file: seq<Byte>, offset: nat): (r: Option<Parsed>)
    ensures r.Some? ==> offset + 8 <= r.value.next <= |file|
    ensures r.Some? && r.value.at.Some? ==> r.value.at.value.offset + r.value.at.value.length == r.value.next
  {
    if offset + 8 > |file| then None
    else
      var keyLength := U32Value(file[offset..offset + 4]);
      var valueLength := U32Value(file[offset + 4..offset + 8]);
      var start := offset + 8 + keyLength;
      if start > |file| then None
      else
        var key := file[offset + 8..start];
        if valueLength >= TWO_31 then Some(Parsed(key, None, start))
        else if start + valueLength > |file| then None
        else Some(Parsed(key, Some(Location(start, valueLength)), start + valueLength))
  }

  function At(file: seq<Byte>, l: Location): Value
    requires l.offset + l.length <= |file|
  {
    file[l.offset..l.offset + l.length]
  }

  function RecordOf(file: seq<Byte>, p: Parsed): Record
    requires p.at.Some? ==> p.at.value.offset + p.at.value.length <= |file|
  {
    Record(p.key, if p.at.Some? then Some(At(file, p.at.value)) else None)
  }

  /** All whole records from an offset on, and where the last of them ends. */
  function ScanFrom(file: seq<Byte>, offset: nat): (seq<Record>, nat)
    decreases |file| - offset
  {
    match ParseAt(file, offset)
    case None => ([], offset)
    case Some(p) =>
      var (rs, end) := ScanFrom(file, p.next);
      ([RecordOf(file, p)] + rs, end)
  }

  // -------------------------------------------------------------- meaning

  function Put(m: map<Key, Value>, r: Record): map<Key, Value> {
    if r.value.Some? then m[r.key := r.value.value] else m - {r.key}
  }

  /** The map a sequence of records stands for: the last record of a key counts. */
  function Contents(rs: seq<Record>): map<Key, Value> {
    if rs == [] then map[] else Put(Contents(rs[..|rs| - 1]), rs[|rs| - 1])
  }

  // ------------------------------------------------------ what a scan finds

  lemma {:induction false} ScanBounds(file: seq<Byte>, offset: nat)
    requires offset <= |file|
    ensures var (rs, end) := ScanFrom(file, offset);
      offset <= end <= |file| && end - offset == TotalSize(rs) && AllFit(rs)
    decreases |file| - offset
  {
    match ParseAt(file, offset)
    case None =>
    case Some(p) =>
      ScanBounds(file, p.next);
      TotalSizeSplit([RecordOf(file, p)], ScanFrom(file, p.next).0);
      assert [RecordOf(file, p)][..0] == [];
  }

  lemma {:induction false} TotalSizeSplit(a: seq<Record>, b: seq<Record>)
    ensures TotalSize(a + b) == TotalSize(a) + TotalSize(b)
    decreases |b|
  {
    if b == [] {
      assert a + b == a;
    } else {
      TotalSizeSplit(a, b[..|b| - 1]);
      assert (a + b)[..|a + b| - 1] == a + b[..|b| - 1];
    }
  }

  /** One parse step, seen from the start of the file. */
  lemma {:induction false} ScanStep(file: seq<Byte>, start: nat, offset: nat, rs: seq<Record>)
    requires start <= offset <= |file|
    requires ScanFrom(file, start) == (rs + ScanFrom(file, offset).0, ScanFrom(file, offset).1)
    requires ParseAt(file, offset).Some?
    ensures var p := ParseAt(file, offset).value;
      ScanFrom(file, start) == (rs + [RecordOf(file, p)] + ScanFrom(file, p.next).0, ScanFrom(file, p.next).1)
  {
    var p := ParseAt(file, offset).value;
    assert rs + ([RecordOf(file, p)] + ScanFrom(file, p.next).0) == rs + [RecordOf(file, p)] + ScanFrom(file, p.next).0;
  }

  /** Reading back one encoded record. */
  lemma ParseEncoded(file: seq<Byte>, offset: nat, r: Record, rest: seq<Byte>)
    requires Fits(r) && offset <= |file| && file[offset..] == Encode(r) + rest
    ensures var p := ParseAt(file, offset);
      p.Some? && p.value.next == offset + Size(r) && RecordOf(file, p.value) == r
      && (r.value.Some? ==> p.value.at == Some(Location(offset + 8 + |r.key|, |Body(r)|)))
  {
    U32RoundTrip(|r.key|);
    if r.value.Some? { U32RoundTrip(|r.value.value|); }
    var lengths := if r.value.Some? then U32(|r.value.value|) else [0xff, 0xff, 0xff, 0xff];
    var start := offset + 8 + |r.key|;
    EncodedParts(r, rest, lengths);
    Slice(file, offset, 0, 4);
    Slice(file, offset, 4, 8);
    Slice(file, offset, 8, 8 + |r.key|);
    Slice(file, offset, 8 + |r.key|, 8 + |r.key| + |Body(r)|);
    assert file[start..start + |Body(r)|] == Body(r);
  }

  lemma Slice(file: seq<Byte>, offset: nat, lo: nat, hi: nat)
    requires lo <= hi && offset + hi <= |file|
    ensures file[offset + lo..offset + hi] == file[offset..][lo..hi]
  {
  }

  lemma EncodedParts(r: Record, rest: seq<Byte>, lengths: seq<Byte>)
    requires Fits(r) && lengths == if r.value.Some? then U32(|r.value.value|) else [0xff, 0xff, 0xff, 0xff]
    ensures var tail := Encode(r) + rest;
      tail[..4] == U32(|r.key|) && tail[4..8] == lengths
      && tail[8..8 + |r.key|] == r.key && tail[8 + |r.key|..8 + |r.key| + |Body(r)|] == Body(r)
  {
  }

  // ------------------------------------------------------------ appending

  lemma ParseStable(file: seq<Byte>, more: seq<Byte>, offset: nat)
    requires ParseAt(file, offset).Some?
    ensures ParseAt(file + more, offset) == ParseAt(file, offset)
    ensures RecordOf(file + more, ParseAt(file, offset).value) == RecordOf(file, ParseAt(file, offset).value)
  {
    var p := ParseAt(file, offset).value;
    var longer := file + more;
    assert longer[offset..offset + 4] == file[offset..offset + 4];
    assert longer[offset + 4..offset + 8] == file[offset + 4..offset + 8];
    assert longer[offset + 8..offset + 8 + |p.key|] == file[offset + 8..offset + 8 + |p.key|];
    if p.at.Some? { assert At(longer, p.at.value) == At(file, p.at.value); }
  }

  /** A record written at the end of a well-formed file is read after all others. */
  lemma {:induction false} ScanAppended(file: seq<Byte>, offset: nat, r: Record)
    requires Fits(r) && offset <= |file| && ScanFrom(file, offset).1 == |file|
    ensures ScanFrom(file + Encode(r), offset) == (ScanFrom(file, offset).0 + [r], |file| + Size(r))
    decreases |file| - offset
  {
    var longer := file + Encode(r);
    match ParseAt(file, offset)
    case None =>
      assert longer[offset..] == Encode(r) + [];
      ParseEncoded(longer, offset, r, []);
      Nothing(longer, |longer|);
      assert ScanFrom(longer, |longer|) == ([], |longer|);
      assert [r] + [] == ScanFrom(file, offset).0 + [r];
    case Some(p) =>
      ParseStable(file, Encode(r), offset);
      ScanAppended(file, p.next, r);
      var x, rs := RecordOf(file, p), ScanFrom(file, p.next).0;
      assert [x] + (rs + [r]) == [x] + rs + [r];
  }

  // ------------------------------------------------------- crash recovery

  lemma ScanOfNothing()
    ensures ScanFrom([], 0) == ([], 0)
  {
  }

  /** Nothing is lost from a file that was not cut. */
  lemma {:induction false} NoCrash(rs: seq<Record>)
    requires AllFit(rs)
    ensures ScanFrom(EncodeAll(rs), 0) == (rs, |EncodeAll(rs)|)
  {
    hide ScanFrom, Encode;
    if rs == [] {
      ScanOfNothing();
    } else {
      NoCrash(rs[..|rs| - 1]);
      ScanAppended(EncodeAll(rs[..|rs| - 1]), 0, rs[|rs| - 1]);
      assert rs[..|rs| - 1] + [rs[|rs| - 1]] == rs;
    }
  }

  lemma Nothing(file: seq<Byte>, offset: nat)
    requires offset == |file|
    ensures ParseAt(file, offset).None?
  {
  }

  /** How many records lie completely within the first c bytes. */
  function Whole(rs: seq<Record>, c: nat): (k: nat)
    ensures k <= |rs|
  {
    if rs == [] || Size(rs[0]) > c then 0 else 1 + Whole(rs[1..], c - Size(rs[0]))
  }

  /** Whole counts the longest sequence of records that fits into c bytes. */
  lemma {:induction false} WholeIsLongest(rs: seq<Record>, c: nat, k: nat)
    requires k <= |rs|
    ensures TotalSize(rs[..k]) <= c <==> k <= Whole(rs, c)
    decreases |rs|
  {
    if k == 0 {
      assert rs[..k] == [];
    } else {
      FirstSize(rs, k);
      if Size(rs[0]) <= c { WholeIsLongest(rs[1..], c - Size(rs[0]), k - 1); }
    }
  }

  lemma FirstSize(rs: seq<Record>, k: nat)
    requires 0 < k <= |rs|
    ensures TotalSize(rs[..k]) == Size(rs[0]) + TotalSize(rs[1..][..k - 1])
  {
    assert rs[..k] == [rs[0]] + rs[1..][..k - 1];
    TotalSizeSplit([rs[0]], rs[1..][..k - 1]);
    assert [rs[0]][..0] == [];
  }

  /** A parse sees only the bytes of its record. */
  lemma ParsePrefix(file: seq<Byte>, offset: nat, c: nat)
    requires ParseAt(file, offset).Some? && c <= |file|
    ensures if ParseAt(file, offset).value.next <= c
      then ParseAt(file[..c], offset) == ParseAt(file, offset)
           && RecordOf(file[..c], ParseAt(file, offset).value) == RecordOf(file, ParseAt(file, offset).value)
      else ParseAt(file[..c], offset).None?
  {
    var p := ParseAt(file, offset).value;
    var cut := file[..c];
    if offset + 8 <= c {
      assert cut[offset..offset + 4] == file[offset..offset + 4];
      assert cut[offset + 4..offset + 8] == file[offset + 4..offset + 8];
    }
    if p.next <= c {
      assert cut[offset + 8..offset + 8 + |p.key|] == file[offset + 8..offset + 8 + |p.key|];
      if p.at.Some? { assert At(cut, p.at.value) == At(file, p.at.value); }
    }
  }

  /** Whatever the byte at which a well-formed file was cut, reading it finds exactly
      the records that lie before the cut, and the boundary behind them. */
  lemma {:induction false} ScanOfCut(file: seq<Byte>, offset: nat, c: nat)
    requires offset <= c <= |file| && ScanFrom(file, offset).1 == |file|
    ensures var rs := ScanFrom(file, offset).0;
      var k := Whole(rs, c - offset);
      ScanFrom(file[..c], offset) == (rs[..k], offset + TotalSize(rs[..k]))
    decreases |file| - offset
  {
    hide RecordOf, ParseAt, Size;
    match ParseAt(file, offset)
    case None =>
    case Some(p) =>
      ParsePrefix(file, offset, c);
      ParsedSize(file, offset);
      var rs, rest := ScanFrom(file, offset).0, ScanFrom(file, p.next).0;
      assert rs[1..] == rest;
      if p.next <= c {
        ScanOfCut(file, p.next, c);
        var k := Whole(rest, c - p.next);
        FirstSize(rs, k + 1);
        assert rs[..k + 1] == [rs[0]] + rest[..k];
      } else {
        assert rs[..0] == [];
      }
  }

  lemma ParsedSize(file: seq<Byte>, offset: nat)
    requires ParseAt(file, offset).Some?
    ensures var p := ParseAt(file, offset).value; Size(RecordOf(file, p)) == p.next - offset
  {
  }

  /** Recovery after a crash at any byte of what was written: the records written
      completely before it, and a file that ends right behind them. */
  lemma CrashRecovery(rs: seq<Record>, c: nat)
    requires AllFit(rs) && c <= |EncodeAll(rs)|
    ensures var file := EncodeAll(rs)[..c];
      var (found, end) := ScanFrom(file, 0);
      found == rs[..Whole(rs, c)] && end <= c && file[..end] == EncodeAll(found)
  {
    var k := Whole(rs, c);
    NoCrash(rs);
    ScanOfCut(EncodeAll(rs), 0, c);
    WholeIsLongest(rs, c, k);
    EncodePrefix(rs, k);
    hide ScanFrom, ParseAt, Encode;
    var end := TotalSize(rs[..k]);
    Slice(EncodeAll(rs)[..c], 0, 0, end);
    assert EncodeAll(rs)[..c][..end] == EncodeAll(rs)[..end];
  }

  lemma {:induction false} EncodePrefix(rs: seq<Record>, k: nat)
    requires AllFit(rs) && k <= |rs|
    ensures |EncodeAll(rs)| == TotalSize(rs) && TotalSize(rs[..k]) <= TotalSize(rs)
    ensures EncodeAll(rs)[..TotalSize(rs[..k])] == EncodeAll(rs[..k])
  {
    hide Encode;
    if k < |rs| {
      var front := rs[..|rs| - 1];
      EncodePrefix(front, k);
      assert front[..k] == rs[..k];
      var n := TotalSize(rs[..k]);
      assert (EncodeAll(front) + Encode(rs[|rs| - 1]))[..n] == EncodeAll(front)[..n];
    } else {
      assert rs[..k] == rs;
      if rs != [] {
        EncodePrefix(rs[..|rs| - 1], |rs| - 1);
        assert rs[..|rs| - 1][..|rs| - 1] == rs[..|rs| - 1];
      }
      assert EncodeAll(rs)[..|EncodeAll(rs)|] == EncodeAll(rs);
    }
  }

  /** A file trimmed to its last whole record reads the same. */
  lemma {:induction false} ScanOfTrimmed(file: seq<Byte>, offset: nat)
    requires offset <= |file|
    ensures var end := ScanFrom(file, offset).1;
      offset <= end <= |file| && ScanFrom(file[..end], offset) == ScanFrom(file, offset)
    decreases |file| - offset
  {
    match ParseAt(file, offset)
    case None =>
      Nothing(file[..offset], offset);
    case Some(p) =>
      ScanOfTrimmed(file, p.next);
      ParsePrefix(file, offset, ScanFrom(file, offset).1);
  }

  // ----------------------------------------------------------- accounting

  function Cost(k: Key, v: Value): nat {
    8 + |k| + |v|
  }

  /** Bytes that the live records of a map take in a file. */
  ghost function LiveSize(m: map<Key, Value>): nat
    decreases |m.Keys|
  {
    if m == map[] then 0
    else
      var k :| k in m;
      assert (m - {k}).Keys == m.Keys - {k};
      Cost(k, m[k]) + LiveSize(m - {k})
  }

  lemma {:induction false} LiveSizeWithout(m: map<Key, Value>, k: Key)
    requires k in m
    ensures LiveSize(m) == Cost(k, m[k]) + LiveSize(m - {k})
    decreases |m.Keys|
  {
    var j :| j in m && LiveSize(m) == Cost(j, m[j]) + LiveSize(m - {j});
    assert (m - {j}).Keys == m.Keys - {j} && (m - {k}).Keys == m.Keys - {k};
    if j != k {
      LiveSizeWithout(m - {j}, k);
      LiveSizeWithout(m - {k}, j);
      assert m - {j} - {k} == m - {k} - {j};
    }
  }

  lemma LiveSizePut(m: map<Key, Value>, k: Key, v: Value)
    ensures LiveSize(m[k := v]) == Cost(k, v) + LiveSize(m - {k})
    ensures LiveSize(m - {k}) == LiveSize(m) - (if k in m then Cost(k, m[k]) else 0)
  {
    LiveSizeWithout(m[k := v], k);
    assert m[k := v] - {k} == m - {k};
    if k in m { LiveSizeWithout(m, k); } else { assert m - {k} == m; }
  }

  predicate NothingReplaced(rs: seq<Record>) {
    && (forall i :: 0 <= i < |rs| ==> rs[i].value.Some?)
    && (forall i, j :: 0 <= i < j < |rs| ==> rs[i].key != rs[j].key)
  }

  lemma {:induction false} ContentsKeys(rs: seq<Record>, k: Key)
    requires k in Contents(rs)
    ensures exists i :: 0 <= i < |rs| && rs[i].key == k
  {
    if rs != [] && !(rs[|rs| - 1].key == k) { ContentsKeys(rs[..|rs| - 1], k); }
  }

  lemma {:induction false} NothingReplacedKeys(rs: seq<Record>, i: nat)
    requires NothingReplaced(rs) && i < |rs|
    ensures rs[i].key in Contents(rs)
  {
    if i < |rs| - 1 { NothingReplacedKeys(rs[..|rs| - 1], i); }
  }

  /** Live records never take more room than the file has, so the garbage is never
      negative; and there is no garbage exactly when no record replaces another. */
  lemma {:induction false} LiveFits(rs: seq<Record>)
    ensures LiveSize(Contents(rs)) <= TotalSize(rs)
    ensures LiveSize(Contents(rs)) == TotalSize(rs) <==> NothingReplaced(rs)
  {
    hide LiveSize;
    if rs == [] { EmptyLive(); } else {
      var front, r := rs[..|rs| - 1], rs[|rs| - 1];
      LiveFits(front);
      LiveSizePut(Contents(front), r.key, Body(r));
      OneMore(rs);
    }
  }

  lemma EmptyLive()
    ensures LiveSize(map[]) == 0
  {
  }

  /** The last record replaces nothing if it is no tombstone and its key is new. */
  lemma OneMore(rs: seq<Record>)
    requires rs != []
    ensures var front, r := rs[..|rs| - 1], rs[|rs| - 1];
      NothingReplaced(rs) <==> NothingReplaced(front) && r.value.Some? && r.key !in Contents(front)
  {
    var front, r := rs[..|rs| - 1], rs[|rs| - 1];
    hide Contents;
    if NothingReplaced(rs) {
      assert NothingReplaced(front);
      if r.key in Contents(front) { ContentsKeys(front, r.key); }
    } else if NothingReplaced(front) && r.value.Some? {
      var i :| 0 <= i < |front| && front[i].key == r.key;
      NothingReplacedKeys(front, i);
    }
  }

  // ----------------------------------------------------------- compaction

  /** The live records of a map, in key order. */
  ghost function Compacted(m: map<Key, Value>): seq<Record> {
    Listed(m, Sorted(m.Keys))
  }

  function Listed(m: map<Key, Value>, ks: seq<Key>): seq<Record>
    requires forall k :: k in ks ==> k in m
  {
    if ks == [] then [] else Listed(m, ks[..|ks| - 1]) + [Record(ks[|ks| - 1], Some(m[ks[|ks| - 1]]))]
  }

  lemma {:induction false} ListedEach(m: map<Key, Value>, ks: seq<Key>)
    requires forall k :: k in ks ==> k in m
    ensures var rs := Listed(m, ks);
      |rs| == |ks| && forall i :: 0 <= i < |ks| ==> rs[i] == Record(ks[i], Some(m[ks[i]]))
  {
    if ks != [] { ListedEach(m, ks[..|ks| - 1]); }
  }

  lemma {:induction false} ListedMeans(m: map<Key, Value>, ks: seq<Key>)
    requires forall k :: k in ks ==> k in m
    ensures Contents(Listed(m, ks)) == map k | k in m && k in ks :: m[k]
  {
    if ks != [] {
      var front, k := ks[..|ks| - 1], ks[|ks| - 1];
      ListedMeans(m, front);
      assert forall j :: j in ks <==> j in front || j == k;
      ContentsPut(Listed(m, front), Record(k, Some(m[k])));
      hide Contents;
    }
  }

  lemma ContentsPut(rs: seq<Record>, r: Record)
    ensures Contents(rs + [r]) == Put(Contents(rs), r)
  {
    assert (rs + [r])[..|rs|] == rs;
  }

  lemma ListedOnce(m: map<Key, Value>, ks: seq<Key>)
    requires (forall k :: k in ks ==> k in m) && Ascending(ks)
    ensures NothingReplaced(Listed(m, ks))
  {
    ListedEach(m, ks);
    hide Listed;
    var rs := Listed(m, ks);
    forall i, j | 0 <= i < j < |rs| ensures rs[i].key != rs[j].key { LessTotal(ks[i], ks[j]); }
  }

  /** Compaction keeps the map and leaves no garbage. */
  lemma CompactionKeeps(m: map<Key, Value>)
    ensures Contents(Compacted(m)) == m && TotalSize(Compacted(m)) == LiveSize(m)
  {
    ListedMeans(m, Sorted(m.Keys));
    ListedOnce(m, Sorted(m.Keys));
    assert (map k | k in m && k in Sorted(m.Keys) :: m[k]) == m;
    LiveFits(Compacted(m));
  }
}
