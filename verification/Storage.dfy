/** The Raft log in its file: the writes of src/raft/log.rs as records of
    src/storage/bitcask.rs, a crash that cuts the file at any byte behind the last
    flush, and what reopening the file and the log on it finds. Values are encoded by a
    function of which only injectivity is known. */
module Storage {
  import opened Basics
  import opened Machine
  import opened LogSpec
  import opened Bytes
  import opened LogKeys
  import opened RaftLog
  import Records

  /** What a value holds. */
  datatype Cell = EntryCell(entry: Entry) | TermVoteCell(termVote: TermVote) | MarkCell(mark: Mark)

  ghost predicate Injective(enc: Cell -> Records.Value) {
    forall a, b :: enc(a) == enc(b) ==> a == b
  }

  predicate InRange(w: Write) {
    match w
    case PutEntry(e) => e.index < TWO_64
    case DropEntry(i) => i < TWO_64
    case _ => true
  }

  predicate AllInRange(ws: seq<Write>) {
    forall i :: 0 <= i < |ws| ==> InRange(ws[i])
  }

  /** The record that a write appends to the file. */
  function RecordFor(enc: Cell -> Records.Value, w: Write): Records.Record
    requires InRange(w)
  {
    match w
    case PutEntry(e) => Records.Record(Encode(EntryKey(e.index)), Some(enc(EntryCell(e))))
    case DropEntry(i) => Records.Record(Encode(EntryKey(i)), None)
    case PutTermVote(tv) => Records.Record(Encode(TermVoteKey), Some(enc(TermVoteCell(tv))))
    case PutCommit(m) => Records.Record(Encode(CommitIndexKey), Some(enc(MarkCell(m))))
    case PutMeta(m) => Records.Record(Encode(SnapshotMetaKey), Some(enc(MarkCell(m))))
  }

  function RecordsFor(enc: Cell -> Records.Value, ws: seq<Write>): (rs: seq<Records.Record>)
    requires AllInRange(ws)
    ensures |rs| == |ws| && forall i :: 0 <= i < |ws| ==> rs[i] == RecordFor(enc, ws[i])
  {
    seq(|ws|, i requires 0 <= i < |ws| => RecordFor(enc, ws[i]))
  }

  /** Cell by cell, the map holds what the disk holds. */
  ghost predicate Shows(enc: Cell -> Records.Value, m: map<Key, Records.Value>, d: Disk) {
    && (forall i :: i in d.entries ==> i < TWO_64)
    && (forall i: Index {:trigger i in d.entries} :: i < TWO_64 ==>
          if i in d.entries then Encode(EntryKey(i)) in m && m[Encode(EntryKey(i))] == enc(EntryCell(d.entries[i]))
          else Encode(EntryKey(i)) !in m)
    && ShowsCell(enc, m, TermVoteKey, if d.termVote.Some? then Some(TermVoteCell(d.termVote.value)) else None)
    && ShowsCell(enc, m, CommitIndexKey, if d.commit.Some? then Some(MarkCell(d.commit.value)) else None)
    && ShowsCell(enc, m, SnapshotMetaKey, if d.meta.Some? then Some(MarkCell(d.meta.value)) else None)
  }

  predicate ShowsCell(enc: Cell -> Records.Value, m: map<Key, Records.Value>, k: LogKey, cell: Option<Cell>)
    requires k.InRange()
  {
    if cell.Some? then Encode(k) in m && m[Encode(k)] == enc(cell.value) else Encode(k) !in m
  }

  /** One map shows one disk. */
  lemma ShowsOne(enc: Cell -> Records.Value, m: map<Key, Records.Value>, a: Disk, b: Disk)
    requires Injective(enc) && Shows(enc, m, a) && Shows(enc, m, b)
    ensures a == b
  {
    forall i ensures i in a.entries <==> i in b.entries {
      assert i in a.entries ==> i < TWO_64;
      assert i in b.entries ==> i < TWO_64;
    }
    forall i | i in a.entries ensures a.entries[i] == b.entries[i] {
      assert enc(EntryCell(a.entries[i])) == enc(EntryCell(b.entries[i]));
    }
    assert a.entries == b.entries;
  }

  // --------------------------------------------------- writes are records

  lemma WriteShows(enc: Cell -> Records.Value, m: map<Key, Records.Value>, d: Disk, w: Write)
    requires InRange(w) && Shows(enc, m, d)
    ensures Shows(enc, Records.Put(m, RecordFor(enc, w)), Perform(d, w))
  {
    hide Encode;
    var k :=
      match w
      case PutEntry(e) => EntryKey(e.index)
      case DropEntry(i) => EntryKey(i)
      case PutTermVote(_) => TermVoteKey
      case PutCommit(_) => CommitIndexKey
      case PutMeta(_) => SnapshotMetaKey;
    KeysDiffer(k);
  }

  /** Writing one cell touches no other. */
  lemma KeysDiffer(k: LogKey)
    requires k.InRange()
    ensures forall i: Index :: i < TWO_64 && Encode(EntryKey(i)) == Encode(k) ==> EntryKey(i) == k
    ensures forall o: LogKey {:trigger Encode(o)} :: !o.EntryKey? && Encode(o) == Encode(k) ==> o == k
  {
    forall i: Index | i < TWO_64 ensures Encode(EntryKey(i)) == Encode(k) ==> EntryKey(i) == k { EncodeOrder(EntryKey(i), k); }
    forall o: LogKey | !o.EntryKey? ensures Encode(o) == Encode(k) ==> o == k { EncodeOrder(o, k); }
  }

  /** The file of any sequence of writes shows the disk that they make. */
  lemma {:induction false} WritesShow(enc: Cell -> Records.Value, ws: seq<Write>)
    requires AllInRange(ws)
    ensures Shows(enc, Records.Contents(RecordsFor(enc, ws)), Stored(ws))
    decreases |ws|
  {
    if ws != [] {
      var front := ws[..|ws| - 1];
      WritesShow(enc, front);
      WriteShows(enc, Records.Contents(RecordsFor(enc, front)), Stored(front), ws[|ws| - 1]);
      assert RecordsFor(enc, ws)[..|ws| - 1] == RecordsFor(enc, front);
      hide Shows, Perform, RecordFor;
    }
  }

  // ------------------------------------------------------------ the crash

  lemma RecordsOfPrefix(enc: Cell -> Records.Value, ws: seq<Write>, k: nat)
    requires AllInRange(ws) && k <= |ws|
    ensures RecordsFor(enc, ws)[..k] == RecordsFor(enc, ws[..k])
  {
  }

  /** A log whose writes are the records of a file, and a crash that cuts the file at any
      byte, though nothing flushed is lost: reopening the file finds the records of the
      first k writes, the one disk they show is that of the log with at most an older
      commit mark, and the log opened on them has the same entries, term, vote, first
      and last index and snapshot point. */
  lemma CrashLosesOnlyCommit(enc: Cell -> Records.Value, ws: seq<Write>, durable: nat, file: seq<Byte>, c: nat,
                             log: seq<Entry>) returns (k: nat)
    requires AllInRange(ws) && durable <= |ws| && OnlyCommits(ws, durable, CommitOf(ws[..durable]))
    requires WellFormed(Stored(ws), log, Loaded(Stored(ws)))
    requires Records.ScanFrom(file, 0) == (RecordsFor(enc, ws), |file|)
    requires Records.TotalSize(RecordsFor(enc, ws)[..durable]) <= c <= |file|
    ensures durable <= k <= |ws| && (c == |file| ==> k == |ws|)
    ensures Records.ScanFrom(file[..c], 0).0 == RecordsFor(enc, ws)[..k]
    ensures Shows(enc, Records.Contents(Records.ScanFrom(file[..c], 0).0), Stored(ws[..k]))
    ensures Injective(enc) ==> forall d :: Shows(enc, Records.Contents(Records.ScanFrom(file[..c], 0).0), d) ==> d == Stored(ws[..k])
    ensures SameButCommit(Stored(ws[..k]), Stored(ws)) && WellFormed(Stored(ws[..k]), log, Loaded(Stored(ws[..k])))
    ensures var before, after := Loaded(Stored(ws)), Loaded(Stored(ws[..k]));
      after == before.(commit := after.commit, commitTerm := after.commitTerm) && after.commit <= before.commit
  {
    hide Records.ScanFrom, Shows, WellFormed, Loaded, OnlyCommits, Stored, Records.TotalSize, Records.Whole, RecordsFor, SameButCommit;
    var rs := RecordsFor(enc, ws);
    k := Records.Whole(rs, c);
    CutRecords(file, rs, durable, c);
    CrashKeepsAllButCommit(ws, durable, k);
    ReopenedWellFormed(Stored(ws), Stored(ws[..k]), log, Loaded(Stored(ws)));
    RecordsOfPrefix(enc, ws, k);
    WritesShow(enc, ws[..k]);
    forall d | Injective(enc) && Shows(enc, Records.Contents(rs[..k]), d) ensures d == Stored(ws[..k]) {
      ShowsOne(enc, Records.Contents(rs[..k]), d, Stored(ws[..k]));
    }
  }

  lemma CutRecords(file: seq<Byte>, rs: seq<Records.Record>, durable: nat, c: nat)
    requires Records.ScanFrom(file, 0) == (rs, |file|) && durable <= |rs|
    requires Records.TotalSize(rs[..durable]) <= c <= |file|
    ensures durable <= Records.Whole(rs, c) <= |rs| && (c == |file| ==> Records.Whole(rs, c) == |rs|)
    ensures Records.ScanFrom(file[..c], 0).0 == rs[..Records.Whole(rs, c)]
  {
    hide Records.ScanFrom, Records.TotalSize, Records.Whole;
    Records.ScanOfCut(file, 0, c);
    Records.ScanBounds(file, 0);
    Records.WholeIsLongest(rs, c, durable);
    Records.WholeIsLongest(rs, c, |rs|);
    assert rs[..|rs|] == rs;
  }
}
