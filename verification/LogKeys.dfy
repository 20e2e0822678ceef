/** The keys under which the Raft log stores its cells (src/raft/log.rs): their byte
    order is the order of the entries, with all metadata behind them. */
module LogKeys {
  import opened Basics
  import opened Bytes

  datatype LogKey = EntryKey(index: Index) | TermVoteKey | CommitIndexKey | SnapshotMetaKey | SnapshotDataKey {

    predicate InRange() {
      EntryKey? ==> index < TWO_64
    }
  }

  function Encode(k: LogKey): Key
    requires k.InRange()
  {
    match k
    case EntryKey(index) => [0x00] + U64(index)
    case TermVoteKey => [0x01]
    case CommitIndexKey => [0x02]
    case SnapshotMetaKey => [0x03]
    case SnapshotDataKey => [0x04]
  }

  function Rank(k: LogKey): (r: nat)
    ensures r == 0 <==> k.EntryKey?
  {
    match k
    case EntryKey(_) => 0
    case TermVoteKey => 1
    case CommitIndexKey => 2
    case SnapshotMetaKey => 3
    case SnapshotDataKey => 4
  }

  /** Entries sort by index and come before all metadata; different keys have
      different encodings. */
  lemma EncodeOrder(a: LogKey, b: LogKey)
    requires a.InRange() && b.InRange()
    ensures Less(Encode(a), Encode(b)) <==>
      if a.EntryKey? && b.EntryKey? then a.index < b.index else Rank(a) < Rank(b)
    ensures Encode(a) == Encode(b) <==> a == b
  {
    if a.EntryKey? && b.EntryKey? {
      U64Order(a.index, b.index);
      LessAfter([0x00], U64(a.index), U64(b.index));
      if Encode(a) == Encode(b) { assert Encode(a)[1..] == U64(a.index) && Encode(b)[1..] == U64(b.index); }
    } else {
      assert Encode(a)[0] == Rank(a) && Encode(b)[0] == Rank(b);
    }
  }

  /** The range that the log scans for entries lo to hi. */
  function EntryRange(lo: Index, hi: Index): Range
    requires lo < TWO_64 && hi < TWO_64
  {
    Range(Encode(EntryKey(lo)), Included(Encode(EntryKey(hi))))
  }

  lemma EntryRangeHolds(lo: Index, hi: Index, k: LogKey)
    requires lo < TWO_64 && hi < TWO_64 && k.InRange()
    ensures EntryRange(lo, hi).Holds(Encode(k)) <==> k.EntryKey? && lo <= k.index <= hi
  {
    EncodeOrder(k, EntryKey(lo));
    EncodeOrder(EntryKey(hi), k);
  }

  function EntryKeys(first: Index, count: nat): seq<Key>
    requires first + count <= TWO_64
  {
    seq(count, i requires 0 <= i < count => Encode(EntryKey(first + i)))
  }

  /** The keys of a log with consecutive entries and some metadata. */
  function StoredKeys(first: Index, count: nat, metadata: set<LogKey>): set<Key>
    requires first + count <= TWO_64 && forall k :: k in metadata ==> !k.EntryKey?
  {
    (set i | first <= i < first + count :: Encode(EntryKey(i))) + set k | k in metadata :: Encode(k)
  }

  /** Scanning a range of such a log visits its entries one by one in index order, and
      no metadata. */
  lemma ScanVisitsInOrder(first: Index, count: nat, metadata: set<LogKey>, lo: Index, hi: Index)
    requires first <= lo <= hi < first + count <= TWO_64 && forall k :: k in metadata ==> !k.EntryKey?
    ensures Sorted(set b | b in StoredKeys(first, count, metadata) && EntryRange(lo, hi).Holds(b)) == EntryKeys(lo, hi + 1 - lo)
  {
    hide Encode, Range.Holds, Sorted;
    var found := set b | b in StoredKeys(first, count, metadata) && EntryRange(lo, hi).Holds(b);
    var ks := EntryKeys(lo, hi + 1 - lo);
    forall i, j | 0 <= i < j < |ks| ensures Less(ks[i], ks[j]) { EncodeOrder(EntryKey(lo + i), EntryKey(lo + j)); }
    forall b ensures b in ks <==> b in found {
      if b in ks {
        var i :| 0 <= i < |ks| && ks[i] == b;
        EntryRangeHolds(lo, hi, EntryKey(lo + i));
      }
      if b in found {
        FoundIsEntry(first, count, metadata, lo, hi, b);
      }
    }
    SortedUnique(Sorted(found), ks);
  }

  lemma FoundIsEntry(first: Index, count: nat, metadata: set<LogKey>, lo: Index, hi: Index, b: Key)
    requires first <= lo <= hi < first + count <= TWO_64 && forall k :: k in metadata ==> !k.EntryKey?
    requires b in StoredKeys(first, count, metadata) && EntryRange(lo, hi).Holds(b)
    ensures b in EntryKeys(lo, hi + 1 - lo)
  {
    hide Range.Holds, Encode;
    if k :| k in metadata && Encode(k) == b {
      EntryRangeHolds(lo, hi, k);
    } else {
      var i :| first <= i < first + count && b == Encode(EntryKey(i));
      EntryRangeHolds(lo, hi, EntryKey(i));
      assert EntryKeys(lo, hi + 1 - lo)[i - lo] == b;
    }
  }
}
