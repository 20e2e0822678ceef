/** The BitCask engine (src/storage/bitcask.rs): an append-only file and an index of
    the live values in it. */
module BitCask {
  import opened Basics
  import opened Bytes
  import opened Records

  type KeyDir = map<Key, Location>

  /** The index points at the value of every live key. */
  predicate Points(file: seq<Byte>, keydir: KeyDir, m: map<Key, Value>) {
    && keydir.Keys == m.Keys
    && forall k :: k in keydir ==> keydir[k].offset + keydir[k].length <= |file| && At(file, keydir[k]) == m[k]
  }

  predicate Within(keydir: KeyDir, end: nat) {
    forall k :: k in keydir ==> keydir[k].offset + keydir[k].length <= end
  }

  lemma EmptyPoints(file: seq<Byte>)
    ensures Points(file, map[], Contents([]))
  {
  }

  lemma PointsLonger(file: seq<Byte>, more: seq<Byte>, keydir: KeyDir, m: map<Key, Value>)
    requires Points(file, keydir, m)
    ensures Points(file + more, keydir, m)
  {
    forall k | k in keydir ensures At(file + more, keydir[k]) == m[k] {
      assert At(file + more, keydir[k]) == At(file, keydir[k]);
    }
  }

  /** Taking one parsed record into the index. */
  lemma PointsPut(file: seq<Byte>, keydir: KeyDir, rs: seq<Record>, offset: nat)
    requires ParseAt(file, offset).Some? && Points(file, keydir, Contents(rs))
    ensures var p := ParseAt(file, offset).value;
      Points(file, if p.at.Some? then keydir[p.key := p.at.value] else keydir - {p.key}, Contents(rs + [RecordOf(file, p)]))
  {
    hide ParseAt, Contents;
    ContentsPut(rs, RecordOf(file, ParseAt(file, offset).value));
  }

  /** The values found by a scan have lengths that fit the format. */
  lemma {:induction false} ContentsFit(rs: seq<Record>, k: Key)
    requires AllFit(rs) && k in Contents(rs)
    ensures Fits(Record(k, Some(Contents(rs)[k])))
  {
    if rs != [] && !(rs[|rs| - 1].key == k) { ContentsFit(rs[..|rs| - 1], k); }
  }

  /** A range scan: the live pairs of the range in key order. */
  function Pairs(m: map<Key, Value>, ks: seq<Key>): seq<(Key, Value)>
    requires forall k :: k in ks ==> k in m
  {
    seq(|ks|, i requires 0 <= i < |ks| => (ks[i], m[ks[i]]))
  }

  ghost function InRange(m: map<Key, Value>, range: Range): set<Key> {
    set k | k in m && range.Holds(k)
  }

  /** There is garbage, as many bytes and as large a part of the file as asked for. */
  predicate Worthwhile(diskSize: nat, liveDiskSize: nat, garbageMinFraction: real, garbageMinBytes: nat) {
    var garbage := diskSize - liveDiskSize;
    garbage > 0 && garbage >= garbageMinBytes && garbage as real >= garbageMinFraction * diskSize as real
  }

  datatype Status = Status(keys: nat, size: nat, diskSize: nat, liveDiskSize: nat)

  /** The keys of a set in order, by repeated selection of the least one. */
  method InOrder(s: set<Key>) returns (ks: seq<Key>)
    ensures ks == Sorted(s) && (forall k :: k in ks <==> k in s) && Ascending(ks)
  {
    ks := [];
    var rest := s;
    while rest != {}
      invariant Ascending(ks) && rest <= s && forall k :: k in ks <==> k in s - rest
      invariant forall i, k :: 0 <= i < |ks| && k in rest ==> Less(ks[i], k)
      decreases |rest|
    {
      var k := TakeLeast(rest);
      ks := ks + [k];
      rest := rest - {k};
    }
    SortedUnique(ks, Sorted(s));
  }

  method TakeLeast(s: set<Key>) returns (k: Key)
    requires s != {}
    ensures k in s && forall x :: x in s && x != k ==> Less(k, x)
  {
    k :| k in s;
    var rest := s - {k};
    while rest != {}
      invariant k in s && rest <= s && k !in rest
      invariant forall x :: x in s - rest && x != k ==> Less(k, x)
      decreases |rest|
    {
      var x :| x in rest;
      rest := rest - {x};
      LessTotal(k, x);
      if Less(x, k) {
        forall y | y in s - rest && y != x ensures Less(x, y) {
          if y != k { LessTransitive(x, k, y); }
        }
        k := x;
      }
    }
  }

  class BitCask {
    var file: seq<Byte>
    var keydir: KeyDir
    /** What has been written, in order. */
    ghost var records: seq<Record>

    ghost predicate Valid()
      reads this
    {
      ScanFrom(file, 0) == (records, |file|) && Points(file, keydir, Contents(records))
    }

    ghost function Map(): map<Key, Value>
      reads this
    {
      Contents(records)
    }

    /** Open a file as it was found. What follows its last whole record is cut off. */
    constructor (found: seq<Byte>)
      ensures Valid()
      ensures records == ScanFrom(found, 0).0
      ensures ScanFrom(found, 0).1 <= |found| && file == found[..ScanFrom(found, 0).1]
    {
      file := found;
      keydir := map[];
      records := [];
      new;
      BuildKeydir();
    }

    /** Read the file record by record, and trim it if it ends within one. */
    method BuildKeydir()
      modifies this
      ensures Valid()
      ensures records == ScanFrom(old(file), 0).0
      ensures ScanFrom(old(file), 0).1 <= |old(file)| && file == old(file)[..ScanFrom(old(file), 0).1]
    {
      hide ParseAt, Contents, Points;
      keydir, records := map[], [];
      var offset := 0;
      EmptyPoints(file);
      assert [] + ScanFrom(file, 0).0 == ScanFrom(file, 0).0;
      while offset < |file|
        invariant offset <= |file| && file == old(file)
        invariant ScanFrom(file, 0) == (records + ScanFrom(file, offset).0, ScanFrom(file, offset).1)
        invariant Points(file, keydir, Contents(records)) && Within(keydir, offset)
      {
        var entry := ReadEntry(offset);
        if entry.None? { break; }
        var p := entry.value;
        ScanStep(file, 0, offset, records);
        PointsPut(file, keydir, records, offset);
        records := records + [RecordOf(file, p)];
        keydir := if p.at.Some? then keydir[p.key := p.at.value] else keydir - {p.key};
        offset := p.next;
      }
      if offset == |file| { Nothing(file, offset); }
      assert records + [] == records;
      ScanOfTrimmed(file, 0);
      Trim(offset);
    }

    /** Cut the file behind its last whole record. */
    method Trim(end: nat)
      requires ScanFrom(file, 0) == (records, end) && end <= |file| && ScanFrom(file[..end], 0) == ScanFrom(file, 0)
      requires Points(file, keydir, Contents(records)) && Within(keydir, end)
      modifies this`file
      ensures Valid() && file == old(file)[..end]
    {
      forall k | k in keydir ensures At(file[..end], keydir[k]) == At(file, keydir[k]) {}
      file := file[..end];
    }

    /** Key length, value length, key and value; None if the file ends on the way. */
    method ReadEntry(offset: nat) returns (r: Option<Parsed>)
      requires offset <= |file|
      ensures r == ParseAt(file, offset)
    {
      if offset + 4 > |file| { return None; }
      var keyLength := U32Value(file[offset..offset + 4]);
      if offset + 8 > |file| { return None; }
      var valueLength := U32Value(file[offset + 4..offset + 8]);
      var start := offset + 8 + keyLength;
      if start > |file| { return None; }
      var key := file[offset + 8..start];
      if valueLength >= TWO_31 { return Some(Parsed(key, None, start)); }
      if start + valueLength > |file| { return None; }
      return Some(Parsed(key, Some(Location(start, valueLength)), start + valueLength));
    }

    /** Append one record and return where its value lies. */
    method WriteEntry(key: Key, value: Option<Value>) returns (l: Location)
      requires Fits(Record(key, value)) && ScanFrom(file, 0) == (records, |file|)
      modifies this`file, this`records
      ensures ScanFrom(file, 0) == (records, |file|)
      ensures records == old(records) + [Record(key, value)] && file == old(file) + Encode(Record(key, value))
      ensures l.offset + l.length <= |file| && At(file, l) == Body(Record(key, value))
    {
      hide ScanFrom;
      var r := Record(key, value);
      l := Location(|file| + 8 + |key|, |Body(r)|);
      ScanAppended(file, 0, r);
      file := file + Encode(r);
      records := records + [r];
      assert At(file, l) == Encode(r)[8 + |key|..];
    }

    method Set(key: Key, value: Value)
      requires Valid() && |key| < TWO_32 && |value| < TWO_31
      modifies this
      ensures Valid() && Map() == old(Map())[key := value]
      ensures records == old(records) + [Record(key, Some(value))] && file == old(file) + Encode(Record(key, Some(value)))
    {
      PointsLonger(file, Encode(Record(key, Some(value))), keydir, Contents(records));
      var l := WriteEntry(key, Some(value));
      keydir := keydir[key := l];
      assert records[..|records| - 1] == old(records);
    }

    method Delete(key: Key)
      requires Valid() && |key| < TWO_32
      modifies this
      ensures Valid() && Map() == old(Map()) - {key}
      ensures records == old(records) + [Record(key, None)] && file == old(file) + Encode(Record(key, None))
    {
      PointsLonger(file, Encode(Record(key, None)), keydir, Contents(records));
      var l := WriteEntry(key, None);
      keydir := keydir - {key};
      assert records[..|records| - 1] == old(records);
    }

    method Get(key: Key) returns (value: Option<Value>)
      requires Valid()
      ensures value == if key in Map() then Some(Map()[key]) else None
    {
      if key !in keydir { return None; }
      return Some(At(file, keydir[key]));
    }

    method Scan(range: Range) returns (pairs: seq<(Key, Value)>)
      requires Valid()
      ensures pairs == Pairs(Map(), Sorted(InRange(Map(), range)))
    {
      hide ScanFrom, Contents, Sorted, Ascending;
      var ks := InOrder(set k | k in keydir && range.Holds(k));
      assert (set k | k in keydir && range.Holds(k)) == InRange(Map(), range);
      pairs := [];
      for i := 0 to |ks|
        invariant pairs == Pairs(Map(), ks)[..i]
      {
        assert ks[i] in ks && At(file, keydir[ks[i]]) == Map()[ks[i]];
        pairs := pairs + [(ks[i], At(file, keydir[ks[i]]))];
      }
    }

    method ReadStatus() returns (status: Status)
      requires Valid()
      ensures status.keys == |Map()| && status.diskSize == |file|
      ensures status.liveDiskSize == LiveSize(Map()) == status.size + 8 * status.keys
      ensures status.liveDiskSize <= status.diskSize
    {
      hide ScanFrom, Contents, LiveSize, Kept;
      LiveWithin(file, records);
      ghost var m := Map();
      assert forall k :: k in keydir ==> keydir[k].length == |At(file, keydir[k])|;
      WholeKept(m);
      var rest := keydir.Keys;
      var size: nat := 0;
      ghost var counted: nat := 0;
      while rest != {}
        invariant rest <= m.Keys && counted + |rest| == |m|
        invariant size + 8 * counted + LiveSize(Kept(m, rest)) == LiveSize(m)
        decreases |rest|
      {
        var k :| k in rest;
        KeptStep(m, rest, k);
        size := size + |k| + keydir[k].length;
        rest := rest - {k};
        counted := counted + 1;
      }
      status := Status(|keydir|, size, |file|, size + 8 * |keydir|);
    }

    /** A new file with the live values in key order. */
    method WriteLive() returns (b: BitCask)
      requires Valid()
      ensures fresh(b) && b.Valid() && b.records == Compacted(Map())
    {
      hide ScanFrom, Contents, Encode, Listed, Sorted, Ascending, EncodeAll;
      var ks := InOrder(keydir.Keys);
      assert forall k :: k in ks ==> k in Map();
      b := new BitCask([]);
      ScanOfNothing();
      ScanBounds(file, 0);
      NothingListed(Map(), ks);
      for i := 0 to |ks|
        invariant b.Valid() && fresh(b) && b.records == Listed(Map(), ks[..i])
      {
        var value := Get(ks[i]);
        ContentsFit(records, ks[i]);
        b.Set(ks[i], value.value);
        ListedStep(Map(), ks, i);
      }
      assert ks[..|ks|] == ks;
    }

    /** Switch to a file that holds the live values only. */
    method Compact()
      requires Valid()
      modifies this
      ensures Valid() && Map() == old(Map())
      ensures records == Compacted(old(Map())) && |file| == LiveSize(Map())
    {
      hide ScanFrom, Contents, Encode;
      var b := WriteLive();
      CompactionKeeps(Map());
      ScanBounds(b.file, 0);
      file, keydir, records := b.file, b.keydir, b.records;
    }

    /** Compact if the garbage is large enough, absolutely and as a share of the file. */
    method MaybeCompact(garbageMinFraction: real, garbageMinBytes: nat)
      requires Valid()
      modifies this
      ensures Valid() && Map() == old(Map())
      ensures if Worthwhile(|old(file)|, LiveSize(old(Map())), garbageMinFraction, garbageMinBytes)
        then |file| == LiveSize(Map()) else file == old(file)
    {
      hide ScanFrom, Contents, LiveSize, Worthwhile;
      var status := ReadStatus();
      LiveWithin(file, records);
      var worth := WorthCompacting(status.diskSize, status.liveDiskSize, garbageMinFraction, garbageMinBytes);
      if worth {
        Compact();
      }
    }
  }

  method WorthCompacting(diskSize: nat, liveDiskSize: nat, garbageMinFraction: real, garbageMinBytes: nat) returns (worth: bool)
    ensures worth <==> Worthwhile(diskSize, liveDiskSize, garbageMinFraction, garbageMinBytes)
  {
    if diskSize <= liveDiskSize || diskSize - liveDiskSize < garbageMinBytes { return false; }
    SharesAndParts(diskSize - liveDiskSize, diskSize, garbageMinFraction);
    return (diskSize - liveDiskSize) as real / diskSize as real >= garbageMinFraction;
  }

  lemma SharesAndParts(part: nat, whole: nat, share: real)
    requires 0 < whole
    ensures part as real / whole as real >= share <==> part as real >= share * whole as real
  {
    var x := part as real / whole as real;
    assert x * whole as real == part as real;
    ScaledOrder(x, share, whole as real);
  }

  lemma ScaledOrder(x: real, y: real, scale: real)
    requires scale > 0.0
    ensures x >= y <==> x * scale >= y * scale
  {
    assert (x - y) * scale == x * scale - y * scale;
    if x >= y { assert (x - y) * scale >= 0.0; } else { assert (x - y) * scale < 0.0; }
  }

  lemma KeptStep(m: map<Key, Value>, rest: set<Key>, k: Key)
    requires k in rest && rest <= m.Keys
    ensures LiveSize(Kept(m, rest)) == Cost(k, m[k]) + LiveSize(Kept(m, rest - {k}))
  {
    LiveSizeWithout(Kept(m, rest), k);
    assert Kept(m, rest) - {k} == Kept(m, rest - {k});
  }

  lemma WholeKept(m: map<Key, Value>)
    ensures LiveSize(Kept(m, m.Keys)) == LiveSize(m) && LiveSize(Kept(m, {})) == 0 && |m.Keys| == |m|
  {
    assert Kept(m, m.Keys) == m && Kept(m, {}) == map[];
  }

  lemma NothingListed(m: map<Key, Value>, ks: seq<Key>)
    requires forall k :: k in ks ==> k in m
    ensures Listed(m, ks[..0]) == []
  {
  }

  lemma ListedStep(m: map<Key, Value>, ks: seq<Key>, i: nat)
    requires i < |ks| && forall k :: k in ks ==> k in m
    ensures Listed(m, ks[..i + 1]) == Listed(m, ks[..i]) + [Record(ks[i], Some(m[ks[i]]))]
  {
    assert ks[..i + 1][..i] == ks[..i];
  }

  /** Live values are disjoint pieces of the file. */
  lemma LiveWithin(file: seq<Byte>, rs: seq<Record>)
    requires ScanFrom(file, 0) == (rs, |file|)
    ensures LiveSize(Contents(rs)) <= |file|
  {
    LiveFits(rs);
    ScanBounds(file, 0);
  }

  ghost function Kept(m: map<Key, Value>, ks: set<Key>): map<Key, Value> {
    map k | k in m && k in ks :: m[k]
  }

  /** Opening the file of a closed engine finds the same map; opening what is left of
      it after a crash at byte c finds the map of the records that were complete. */
  method Reopen(b: BitCask, c: nat) returns (b': BitCask)
    requires b.Valid() && c <= |b.file|
    ensures fresh(b') && b'.Valid()
    ensures b'.records == b.records[..Whole(b.records, c)] && b'.Map() == Contents(b.records[..Whole(b.records, c)])
    ensures TotalSize(b'.records) <= |b.file| && b'.file == b.file[..TotalSize(b'.records)]
    ensures c == |b.file| ==> b'.Map() == b.Map() && b'.file == b.file
  {
    ReopenedRecords(b.file, b.records, c);
    hide ScanFrom, Contents, Whole, TotalSize;
    b' := new BitCask(b.file[..c]);
    assert b.records[..|b.records|] == b.records;
  }

  lemma ReopenedRecords(file: seq<Byte>, rs: seq<Record>, c: nat)
    requires ScanFrom(file, 0) == (rs, |file|) && c <= |file|
    ensures var k := Whole(rs, c);
      ScanFrom(file[..c], 0) == (rs[..k], TotalSize(rs[..k])) && TotalSize(rs[..k]) <= c
      && file[..c][..TotalSize(rs[..k])] == file[..TotalSize(rs[..k])]
      && (c == |file| ==> k == |rs| && TotalSize(rs[..k]) == |file|)
  {
    hide ScanFrom, Contents, Whole, TotalSize;
    ScanOfCut(file, 0, c);
    ScanBounds(file, 0);
    WholeIsLongest(rs, c, Whole(rs, c));
    WholeIsLongest(rs, c, |rs|);
    assert rs[..|rs|] == rs;
  }
}
