/** The Raft log on top of a storage engine (src/raft/log.rs). The engine is taken at
    its contract: a set of typed cells, changed by a sequence of writes of which a
    crash may lose those behind the last flush, from the end. */
module RaftLog {
  import opened Basics
  import opened Configuration
  import opened Machine
  import opened LogSpec

  datatype TermVote = TermVote(term: Term, vote: Option<NodeId>)
  datatype Mark = Mark(index: Index, term: Term)

  /** The cells under the five kinds of keys (snapshot bytes are opaque here). */
  datatype Disk = Disk(entries: map<Index, Entry>, termVote: Option<TermVote>, commit: Option<Mark>, meta: Option<Mark>)

  datatype Write =
    | PutEntry(entry: Entry)
    | DropEntry(index: Index)
    | PutTermVote(termVote: TermVote)
    | PutCommit(mark: Mark)
    | PutMeta(mark: Mark)

  function Perform(d: Disk, w: Write): Disk {
    match w
    case PutEntry(e) => d.(entries := d.entries[e.index := e])
    case DropEntry(i) => d.(entries := d.entries - {i})
    case PutTermVote(tv) => d.(termVote := Some(tv))
    case PutCommit(m) => d.(commit := Some(m))
    case PutMeta(m) => d.(meta := Some(m))
  }

  const EmptyDisk := Disk(map[], None, None, None)

  function Stored(ws: seq<Write>): Disk {
    if ws == [] then EmptyDisk else Perform(Stored(ws[..|ws| - 1]), ws[|ws| - 1])
  }

  /** The fields the log keeps in memory. */
  datatype Cache = Cache(
    term: Term, vote: Option<NodeId>, first: Index, snapshotTerm: Term,
    last: Index, lastTerm: Term, commit: Index, commitTerm: Term)

  // ---------------------------------------------------------- what is stored

  /** The disk holds exactly these entries, numbered from `first`. */
  ghost predicate Holds(d: Disk, log: seq<Entry>, first: Index) {
    && (forall i :: i in d.entries <==> first <= i < first + |log|)
    && forall i :: 0 <= i < |log| ==> d.entries[first + i] == log[i]
  }

  function Value(m: Option<Mark>): Mark {
    if m.Some? then m.value else Mark(0, 0)
  }

  lemma {:induction false} ExtremesExist(s: set<Index>) returns (lo: Index, hi: Index)
    requires s != {}
    ensures lo in s && hi in s && forall i :: i in s ==> lo <= i <= hi
    decreases |s|
  {
    var x :| x in s;
    lo, hi := x, x;
    if s != {x} {
      var l, h := ExtremesExist(s - {x});
      lo, hi := Min(l, x), Max(h, x);
      assert forall i :: i in s ==> i == x || i in s - {x};
    }
  }

  ghost function Lowest(s: set<Index>): (i: Index)
    requires s != {}
    ensures i in s && forall j :: j in s ==> i <= j
  {
    assert exists i :: i in s && forall j :: j in s ==> i <= j by { var lo, hi := ExtremesExist(s); }
    var i :| i in s && forall j :: j in s ==> i <= j;
    i
  }

  ghost function Highest(s: set<Index>): (i: Index)
    requires s != {}
    ensures i in s && forall j :: j in s ==> j <= i
  {
    assert exists i :: i in s && forall j :: j in s ==> j <= i by { var lo, hi := ExtremesExist(s); }
    var i :| i in s && forall j :: j in s ==> j <= i;
    i
  }

  /** The last entry on a disk, or (0, 0). */
  ghost function LastMark(d: Disk): Mark {
    if d.entries == map[] then Mark(0, 0)
    else
      var i := Highest(d.entries.Keys);
      Mark(i, d.entries[i].term)
  }

  /** What opening the log finds on a disk: the persisted cells and the outermost
      entries, adjusted to the snapshot if there is one. */
  ghost function Loaded(d: Disk): Cache {
    var tv := if d.termVote.Some? then d.termVote.value else TermVote(0, None);
    var commit, meta, last := Value(d.commit), Value(d.meta), LastMark(d);
    var first :=
      if meta.index > 0 then meta.index + 1
      else if d.entries == map[] then 1
      else Lowest(d.entries.Keys);
    var last' := if meta.index > 0 && last.index < meta.index then meta else last;
    var commit' := if meta.index > 0 && commit.index < meta.index then meta else commit;
    Cache(tv.term, tv.vote, first, meta.term, last'.index, last'.term, commit'.index, commit'.term)
  }

  /** The outermost entries of a disk that holds a numbered log. */
  lemma HeldExtremes(d: Disk, log: seq<Entry>, first: Index)
    requires Holds(d, log, first)
    ensures d.entries == map[] <==> log == []
    ensures log != [] ==> Lowest(d.entries.Keys) == first
    ensures log != [] ==> LastMark(d) == Mark(first + |log| - 1, log[|log| - 1].term)
    ensures log == [] ==> LastMark(d) == Mark(0, 0)
  {
    if log != [] {
      assert first in d.entries && first + |log| - 1 in d.entries;
      assert d.entries[first + (|log| - 1)] == log[|log| - 1];
    } else {
      assert d.entries == map[];
    }
  }

  /** Where a log with this first index may lie on a disk. */
  ghost predicate Anchored(d: Disk, log: seq<Entry>, first: Index) {
    && Holds(d, log, first)
    && first == Value(d.meta).index + 1
  }

  /** What opening such a disk finds, in terms of its log. */
  lemma LoadedOf(d: Disk, log: seq<Entry>, first: Index)
    requires Anchored(d, log, first)
    ensures var c, commit, meta := Loaded(d), Value(d.commit), Value(d.meta);
      && c.term == (if d.termVote.Some? then d.termVote.value.term else 0)
      && c.vote == (if d.termVote.Some? then d.termVote.value.vote else None)
      && c.first == first && c.snapshotTerm == meta.term
      && c.last + 1 == first + |log|
      && c.lastTerm == (if log != [] then log[|log| - 1].term else if meta.index > 0 then meta.term else 0)
      && c.commit == (if meta.index > 0 && commit.index < meta.index then meta.index else commit.index)
      && c.commitTerm == (if meta.index > 0 && commit.index < meta.index then meta.term else commit.term)
  {
    HeldExtremes(d, log, first);
  }

  // ------------------------------------------------------------- crashes

  /** Behind the last flush there are only commit marks, and they never go back. */
  predicate OnlyCommits(ws: seq<Write>, durable: nat, from': Index)
    requires durable <= |ws|
  {
    && (forall k :: durable <= k < |ws| ==> ws[k].PutCommit? && from' <= ws[k].mark.index)
    && (forall j, k :: durable <= j < k < |ws| ==> ws[j].mark.index <= ws[k].mark.index)
  }

  /** Disks that differ in the commit mark only. */
  predicate SameButCommit(a: Disk, b: Disk) {
    a == b.(commit := a.commit)
  }

  /** A crash between operations loses at most commit progress. */
  lemma {:induction false} CrashKeepsAllButCommit(ws: seq<Write>, durable: nat, k: nat)
    requires durable <= k <= |ws| && OnlyCommits(ws, durable, CommitOf(ws[..durable]))
    ensures SameButCommit(Stored(ws[..k]), Stored(ws))
    ensures CommitOf(ws[..durable]) <= CommitOf(ws[..k]) <= CommitOf(ws)
    decreases |ws|
  {
    if durable == |ws| {
      assert ws[..k] == ws == ws[..durable];
    } else {
      var front := ws[..|ws| - 1];
      assert front[..durable] == ws[..durable];
      assert OnlyCommits(front, durable, CommitOf(ws[..durable]));
      CommitsAscend(ws, durable);
      if k == |ws| {
        assert ws[..k] == ws;
        CrashKeepsAllButCommit(front, durable, k - 1);
      } else {
        assert front[..k] == ws[..k];
        CrashKeepsAllButCommit(front, durable, k);
      }
    }
  }

  ghost function CommitOf(ws: seq<Write>): Index {
    Value(Stored(ws).commit).index
  }

  lemma CommitsAscend(ws: seq<Write>, durable: nat)
    requires durable < |ws| && OnlyCommits(ws, durable, CommitOf(ws[..durable]))
    ensures CommitOf(ws[..|ws| - 1]) <= CommitOf(ws)
  {
    var front := ws[..|ws| - 1];
    if |front| == durable {
      assert front == ws[..durable];
    } else {
      assert front[|front| - 1] == ws[|ws| - 2];
      assert ws[|ws| - 2].mark.index <= ws[|ws| - 1].mark.index;
    }
  }

  /** A commit mark behind all others is no harm to what a crash leaves. */
  lemma CommitBehind(ws: seq<Write>, durable: nat, m: Mark)
    requires durable <= |ws| && OnlyCommits(ws, durable, CommitOf(ws[..durable])) && CommitOf(ws) <= m.index
    ensures (ws + [PutCommit(m)])[..durable] == ws[..durable]
    ensures OnlyCommits(ws + [PutCommit(m)], durable, CommitOf(ws[..durable]))
  {
    var longer := ws + [PutCommit(m)];
    assert longer[..durable] == ws[..durable];
    if durable < |ws| {
      assert forall k :: durable <= k < |ws| ==> longer[k] == ws[k];
      assert CommitOf(ws) == ws[|ws| - 1].mark.index;
    } else {
      assert ws[..durable] == ws;
    }
  }

  // ------------------------------------------------------------ the log

  /** The entries of a log with indexes in [lo, hi]. */
  function Between(log: seq<Entry>, first: Index, lo: Index, hi: Index): seq<Entry> {
    var a, b := Max(lo, first), Min(hi + 1, first + |log|);
    if a >= b then [] else log[a - first..b - first]
  }

  predicate LastWithMembership(log: seq<Entry>, i: int) {
    0 <= i < |log| && log[i].membership.Some? && forall j :: i < j < |log| ==> log[j].membership.None?
  }

  lemma AllBetween(d: Disk, log: seq<Entry>, c: Cache)
    requires WellFormed(d, log, c)
    ensures Between(log, c.first, 1, c.last) == log
  {
    hide Holds, Orderly, TermsWithin, Loaded;
  }

  ghost predicate FoundIn(es: seq<Entry>, found: Option<Entry>) {
    && (found.None? ==> forall i :: 0 <= i < |es| ==> es[i].membership.None?)
    && (found.Some? ==> exists i :: LastWithMembership(es, i) && es[i] == found.value)
  }

  lemma FoundInLonger(es: seq<Entry>, i: nat, found: Option<Entry>)
    requires i < |es| && FoundIn(es[..i], found)
    ensures FoundIn(es[..i + 1], if es[i].membership.Some? then Some(es[i]) else found)
  {
    if es[i].membership.Some? {
      assert LastWithMembership(es[..i + 1], i);
    } else if found.Some? {
      var j :| LastWithMembership(es[..i], j) && es[..i][j] == found.value;
      assert LastWithMembership(es[..i + 1], j);
    }
  }

  /** Same index and term but another payload: splicing fails an assertion. */
  lemma ClashIsNone(log: seq<Entry>, off: nat, es: seq<Entry>, n: nat)
    requires n < |es| && off + n < |log| && log[off..off + n] == es[..n]
    requires log[off + n].term == es[n].term && log[off + n] != es[n]
    ensures Matching(log, off, es) == None
  {
    if Matching(log, off, es).Some? {
      ClashHolds(log, off, es, n, Matching(log, off, es).value);
      MatchingIffHolds(log, off, es, Matching(log, off, es).value);
    }
  }

  lemma ClashHolds(log: seq<Entry>, off: nat, es: seq<Entry>, n: nat, k: nat)
    requires n < |es| && off + n < |log| && log[off..off + n] == es[..n]
    requires log[off + n].term == es[n].term && log[off + n] != es[n]
    ensures !HoldsExactly(log, off, es, k)
  {
    if k < n {
      assert log[off + k] == log[off..off + n][k] && es[k] == es[..n][k];
    } else if k > n && k <= |es| && off + k <= |log| {
      assert log[off + n] == log[off..off + k][n] && es[n] == es[..k][n];
    }
  }

  predicate TermsWithin(log: seq<Entry>, term: Term) {
    forall i :: 0 <= i < |log| ==> log[i].term <= term
  }

  /** One more entry of the current term. */
  lemma Appended(d: Disk, log: seq<Entry>, first: Index, term: Term, e: Entry)
    requires Anchored(d, log, first) && Orderly(log, first) && TermsWithin(log, term)
    requires e.index == first + |log| && e.term == term
    ensures var d', log' := Perform(d, PutEntry(e)), log + [e];
      Anchored(d', log', first) && Orderly(log', first) && TermsWithin(log', term)
  {
  }

  lemma HoldsSame(d: Disk, d': Disk, log: seq<Entry>, first: Index)
    requires Holds(d, log, first) && d'.entries == d.entries
    ensures Holds(d', log, first)
  {
  }

  lemma SuffixOrderly(log: seq<Entry>, first: Index, term: Term, n: nat)
    requires Orderly(log, first) && TermsWithin(log, term) && n <= |log|
    ensures Orderly(log[n..], first + n) && TermsWithin(log[n..], term)
  {
  }

  lemma FlushedSafe(ws: seq<Write>)
    ensures OnlyCommits(ws, |ws|, CommitOf(ws[..|ws|]))
  {
  }

  lemma AnchoredSame(d: Disk, d': Disk, log: seq<Entry>, first: Index)
    requires Anchored(d, log, first) && d'.entries == d.entries && d'.meta == d.meta
    ensures Anchored(d', log, first)
  {
  }

  /** The entries of a log from es[0] to the last of es. */
  lemma Overlap(log: seq<Entry>, first: Index, es: seq<Entry>)
    requires es != [] && Numbered(es, es[0].index) && first <= es[0].index <= first + |log|
    ensures var off := es[0].index - first;
      Between(log, first, es[0].index, es[|es| - 1].index) == log[off..Min(off + |es|, |log|)]
  {
  }

  lemma OverlapBefore(log: seq<Entry>, first: Index, es: seq<Entry>)
    requires es != [] && Numbered(es, es[0].index) && Numbered(log, first) && es[0].index < first
    ensures var stored := Between(log, first, es[0].index, es[|es| - 1].index);
      |stored| <= |es| && (stored != [] ==> stored[0].index == first)
  {
  }

  /** The entries es[k..] lie over the log on the disk. */
  ghost predicate Overlaid(d: Disk, log: seq<Entry>, first: Index, es: seq<Entry>, k: nat, i: nat)
    requires k <= i <= |es| && es != []
  {
    && (forall x :: x in d.entries <==> first <= x < first + |log| || es[0].index + k <= x < es[0].index + i)
    && forall x :: x in d.entries ==>
      d.entries[x] == if es[0].index + k <= x < es[0].index + i then es[x - es[0].index] else log[x - first]
  }

  /** The index 0 stands for no snapshot, so what is retained looks like a whole log. */
  lemma BackToZero(d: Disk, d': Disk, log: seq<Entry>, first: Index)
    requires Anchored(d, log, first) && Value(d'.meta).index == 0
    requires d' == d.(meta := d'.meta)
    ensures first == 1 ==> Anchored(d', log, 1)
    ensures first == 1 ==> Loaded(d') == Loaded(d).(snapshotTerm := Value(d'.meta).term)
    ensures first > 1 && log != [] ==> Loaded(d').first == first
    ensures first > 1 && log == [] ==> Loaded(d').last == 0
  {
    HeldExtremes(d, log, first);
  }

  lemma StartOverlay(d: Disk, log: seq<Entry>, first: Index, es: seq<Entry>, k: nat)
    requires Holds(d, log, first) && es != [] && k <= |es|
    ensures Overlaid(d, log, first, es, k, k)
  {
    forall x | x in d.entries ensures d.entries[x] == log[x - first] {
      assert d.entries[first + (x - first)] == log[x - first];
    }
  }

  lemma Overlay(d: Disk, log: seq<Entry>, first: Index, es: seq<Entry>, k: nat, i: nat)
    requires k <= i < |es| && Overlaid(d, log, first, es, k, i) && Numbered(es, es[0].index)
    ensures Overlaid(Perform(d, PutEntry(es[i])), log, first, es, k, i + 1)
  {
  }

  /** What is left after deleting the entries in (end, x). */
  ghost predicate Trimmed(d: Disk, written: Disk, end: Index, x: Index) {
    d.entries == written.entries - set i | i in written.entries && end < i < x
  }

  /** Overwritten and trimmed, the disk holds the spliced log. */
  lemma OverlayHolds(d: Disk, written: Disk, log: seq<Entry>, first: Index, es: seq<Entry>, k: nat, off: nat)
    requires es != [] && k < |es| && es[0].index == first + off && off + k <= |log| && log[off..off + k] == es[..k]
    requires Overlaid(written, log, first, es, k, |es|) && Trimmed(d, written, es[0].index + |es| - 1, Max(es[0].index + |es|, first + |log|))
    ensures Holds(d, log[..off] + es, first)
  {
    var log' := log[..off] + es;
    forall i | 0 <= i < |log'| ensures d.entries[first + i] == log'[i] {
      if off <= i < off + k { assert log[i] == log[off..off + k][i - off] == es[..k][i - off]; }
    }
  }

  lemma SplicedShape(log: seq<Entry>, first: Index, commit: Index, term: Term, es: seq<Entry>, off: nat, k: nat)
    requires Orderly(log, first) && TermsWithin(log, term) && 1 <= first <= commit + 1 <= first + |log|
    requires es != [] && k < |es| && WellShaped(es, term) && Touches(log, first, es) && es[0].index == first + off
    requires Matching(log, off, es) == Some(k) && es[k].index > commit
    ensures off + k <= |log| && log[off..off + k] == es[..k]
    ensures Splice(log, first, commit, term, es) == Some(log[..off] + es)
    ensures Orderly(log[..off] + es, first) && TermsWithin(log[..off] + es, term) && commit + 1 <= first + off + |es|
  {
    hide Splice, Matching, Touches, TermsAscend;
    SpliceIs(log, first, commit, term, es, off, k);
    SpliceMeaning(log, first, commit, term, es);
    MatchingIffHolds(log, off, es, k);
    Overwritten(log, off, es, k, 0);
    SuppliedTerms(es);
    LastTermBounds(es, term);
  }

  lemma SpliceIs(log: seq<Entry>, first: Index, commit: Index, term: Term, es: seq<Entry>, off: nat, k: nat)
    requires es != [] && k < |es| && WellShaped(es, term) && Touches(log, first, es) && es[0].index == first + off
    requires Matching(log, off, es) == Some(k) && es[k].index > commit
    ensures Splice(log, first, commit, term, es) == Some(log[..off + k] + es[k..])
  {
    hide Matching, WellShaped, Touches;
  }

  lemma LastTermBounds(es: seq<Entry>, term: Term)
    requires es != [] && TermsAscend(es) && es[|es| - 1].term <= term
    ensures TermsWithin(es, term)
  {
  }

  /** The entries are numbered and ordered, lie around the commit index and are what
      the disk holds. */
  ghost predicate WellFormed(d: Disk, log: seq<Entry>, c: Cache) {
    && 1 <= c.first && Orderly(log, c.first) && TermsWithin(log, c.term)
    && Anchored(d, log, c.first)
    && c.last + 1 == c.first + |log| && c.first <= c.commit + 1 <= c.first + |log|
    && (log != [] ==> c.lastTerm == log[|log| - 1].term)
  }

  lemma NumberedInside(d: Disk, log: seq<Entry>, c: Cache)
    requires WellFormed(d, log, c)
    ensures Numbered(log, c.first) && c.last + 1 == c.first + |log|
  {
  }

  lemma CommitInside(d: Disk, log: seq<Entry>, c: Cache)
    requires WellFormed(d, log, c)
    ensures Holds(d, log, c.first) && 1 <= c.first <= c.commit + 1 && c.commit <= c.last && c.last + 1 == c.first + |log|
  {
  }

  lemma OverwriteKeeps(d: Disk, written: Disk, d': Disk, log: seq<Entry>, c: Cache, es: seq<Entry>, off: nat, k: nat)
    requires WellFormed(d, log, c) && Loaded(d) == c
    requires es != [] && k < |es| && WellShaped(es, c.term) && Touches(log, c.first, es) && es[0].index == c.first + off
    requires Numbered(es, es[0].index) && Matching(log, off, es) == Some(k) && es[k].index > c.commit
    requires Overlaid(written, log, c.first, es, k, |es|)
    requires d' == d.(entries := d'.entries) && Trimmed(d', written, es[|es| - 1].index, Max(es[|es| - 1].index, c.last) + 1)
    ensures off <= |log|
    ensures var log', c' := log[..off] + es, c.(last := es[|es| - 1].index, lastTerm := es[|es| - 1].term);
      WellFormed(d', log', c') && Loaded(d') == c' && Splice(log, c.first, c.commit, c.term, es) == Some(log')
  {
    hide Loaded, Holds, TermsAscend, Matching, Overlaid, WellShaped, Touches, Trimmed, Splice;
    SplicedShape(log, c.first, c.commit, c.term, es, off, k);
    LoadedOf(d, log, c.first);
    OverlayHolds(d', written, log, c.first, es, k, off);
    var log' := log[..off] + es;
    assert log'[|log'| - 1] == es[|es| - 1];
    LoadedOf(d', log', c.first);
  }

  lemma NothingBetween(log: seq<Entry>, first: Index, lo: Index, hi: Index)
    requires lo > hi
    ensures Between(log, first, lo, hi) == []
  {
  }

  /** Scanning one index further. */
  lemma BetweenStep(log: seq<Entry>, first: Index, lo: Index, i: Index)
    requires lo <= i
    ensures Between(log, first, lo, i) ==
      (if i == lo then [] else Between(log, first, lo, i - 1)) + (if first <= i < first + |log| then [log[i - first]] else [])
  {
  }

  lemma CompactKeeps(d: Disk, d': Disk, log: seq<Entry>, c: Cache, index: Index, term: Term)
    requires WellFormed(d, log, c) && Loaded(d) == c && c.first <= index <= c.commit
    requires Holds(d', log[index + 1 - c.first..], index + 1)
    requires d' == d.(entries := d'.entries, meta := Some(Mark(index, term)))
    ensures var c', log' := c.(first := index + 1, snapshotTerm := term), log[index + 1 - c.first..];
      WellFormed(d', log', c') && (Loaded(d') == c' <==> (index == c.last ==> term == c.lastTerm))
  {
    hide Loaded, Holds;
    LoadedOf(d, log, c.first);
    SuffixOrderly(log, c.first, c.term, index + 1 - c.first);
    LoadedOf(d', log[index + 1 - c.first..], index + 1);
  }

  lemma CompactToZero(d: Disk, d': Disk, log: seq<Entry>, c: Cache, term: Term)
    requires WellFormed(d, log, c) && Loaded(d) == c
    requires d' == d.(meta := Some(Mark(0, term)))
    ensures var c' := c.(first := 1, snapshotTerm := term);
      (c.first == 1 ==> WellFormed(d', log, c')) && (Loaded(d') == c' <==> c.first == 1)
  {
    hide Loaded, Holds;
    BackToZero(d, d', log, c.first);
  }

  lemma ResetKeeps(d: Disk, d': Disk, log: seq<Entry>, c: Cache, index: Index, term: Term)
    requires WellFormed(d, log, c) && Loaded(d) == c
    requires d' == d.(entries := map[], meta := Some(Mark(index, term)), commit := Some(Mark(index, term)))
    ensures var c' := Cache(c.term, c.vote, index + 1, term, index, term, index, term);
      WellFormed(d', [], c') && (Loaded(d') == c' <==> index > 0 || term == 0)
  {
    hide Loaded;
    LoadedOf(d, log, c.first);
    LoadedOf(d', [], index + 1);
  }

  class RaftLog {
    var disk: Disk
    var term: Term
    var vote: Option<NodeId>
    var firstIndex: Index
    var snapshotTerm: Term
    var lastIndex: Index
    var lastTerm: Term
    var commitIndex: Index
    var commitTerm: Term
    var fsync: bool

    /** Every write so far, how many of them have been flushed, and the entries held. */
    ghost var writes: seq<Write>
    ghost var durable: nat
    ghost var log: seq<Entry>

    /** Open the log on an engine: read the cells, and scan for the outermost entries. */
    constructor (found: Disk, ghost ws: seq<Write>, ghost held: seq<Entry>)
      requires found == Stored(ws)
      ensures disk == found && Cached() == Loaded(found) && fsync
      ensures writes == ws && durable == |ws| && log == held
    {
      var tv := if found.termVote.Some? then found.termVote.value else TermVote(0, None);
      var commit, meta, last := Value(found.commit), Value(found.meta), Mark(0, 0);
      var first := 1;
      if found.entries != map[] {
        var lo, hi := Outermost(found.entries.Keys);
        last := Mark(hi, found.entries[hi].term);
        first := lo;
      }
      if meta.index > 0 {
        first := meta.index + 1;
        if last.index < meta.index { last := meta; }
        if commit.index < meta.index { commit := meta; }
      }
      disk, term, vote, firstIndex, snapshotTerm := found, tv.term, tv.vote, first, meta.term;
      lastIndex, lastTerm, commitIndex, commitTerm := last.index, last.term, commit.index, commit.term;
      fsync := true;
      writes, durable, log := ws, |ws|, held;
    }

    ghost function Cached(): Cache
      reads this
    {
      Cache(term, vote, firstIndex, snapshotTerm, lastIndex, lastTerm, commitIndex, commitTerm)
    }

    /** The entries are numbered and ordered, and lie around the commit index. */
    ghost predicate Shaped()
      reads this
    {
      disk == Stored(writes) && durable <= |writes| && WellFormed(disk, log, Cached())
    }

    /** Opening the same disk again would give the same log. */
    ghost predicate Valid()
      reads this
    {
      Shaped() && Cached() == Loaded(disk)
    }

    /** A crash now would lose at most commit progress. */
    ghost predicate Safe()
      reads this
    {
      fsync && durable <= |writes| && OnlyCommits(writes, durable, CommitOf(writes[..durable]))
    }

    // ------------------------------------------------------- engine access

    method Perform1(w: Write)
      requires disk == Stored(writes)
      modifies this`disk, this`writes
      ensures disk == Stored(writes) == Perform(old(disk), w) && writes == old(writes) + [w]
    {
      disk := Perform(disk, w);
      assert (writes + [w])[..|writes|] == writes;
      writes := writes + [w];
    }

    method Flush()
      modifies this`durable
      ensures durable == |writes|
    {
      durable := |writes|;
    }

    method MaybeFlush()
      modifies this`durable
      ensures durable == if fsync then |writes| else old(durable)
    {
      if fsync { Flush(); }
    }

    // ---------------------------------------------------------- operations

    /** Term 0, an earlier term and a second vote in one term fail an assertion. */
    method SetTermVote(newTerm: Term, newVote: Option<NodeId>) returns (ok: bool)
      requires Valid()
      modifies this
      ensures ok <==> newTerm > 0 && newTerm >= old(term) && (newTerm > old(term) || old(vote).None? || newVote == old(vote))
      ensures Valid() && log == old(log) && firstIndex == old(firstIndex) && commitIndex == old(commitIndex) && fsync == old(fsync)
      ensures if ok then term == newTerm && vote == newVote else term == old(term) && vote == old(vote)
      ensures old(Safe()) ==> Safe()
      ensures ok && (newTerm, newVote) != (old(term), old(vote)) ==> durable == |writes|
    {
      hide Loaded, Stored;
      if newTerm == 0 || newTerm < term || !(newTerm > term || vote.None? || newVote == vote) { return false; }
      if newTerm == term && newVote == vote { return true; }
      LoadedOf(disk, log, firstIndex);
      Perform1(PutTermVote(TermVote(newTerm, newVote)));
      Flush();
      LoadedOf(disk, log, firstIndex);
      term := newTerm;
      vote := newVote;
      return true;
    }

    /** Term 0, and a command together with a configuration, fail an assertion. */
    method AppendEntry(command: Option<Command>, membership: Option<MembershipEntry>) returns (index: Option<Index>)
      requires Valid()
      modifies this
      ensures index.Some? <==> old(term) > 0 && (command.None? || membership.None?)
      ensures index.Some? ==> index.value == old(lastIndex) + 1
      ensures index.Some? ==> log == old(log) + [Entry(index.value, term, command, membership)]
      ensures index.None? ==> log == old(log)
      ensures Valid() && term == old(term) && vote == old(vote) && firstIndex == old(firstIndex) && commitIndex == old(commitIndex)
      ensures fsync == old(fsync) && (old(Safe()) ==> Safe()) && (fsync && index.Some? ==> durable == |writes|)
    {
      hide Loaded, Stored, Anchored, Orderly, TermsWithin;
      if term == 0 || (command.Some? && membership.Some?) { return None; }
      var entry := Entry(lastIndex + 1, term, command, membership);
      LoadedOf(disk, log, firstIndex);
      Appended(disk, log, firstIndex, term, entry);
      Perform1(PutEntry(entry));
      MaybeFlush();
      log := log + [entry];
      LoadedOf(disk, log, firstIndex);
      lastIndex := entry.index;
      lastTerm := entry.term;
      return Some(entry.index);
    }

    method Get(index: Index) returns (entry: Option<Entry>)
      requires Shaped()
      ensures entry == if firstIndex <= index <= lastIndex then Some(log[index - firstIndex]) else None
    {
      if index in disk.entries {
        assert disk.entries[firstIndex + (index - firstIndex)] == log[index - firstIndex];
        return Some(disk.entries[index]);
      }
      return None;
    }

    /** Committing a missing entry or going back fails an assertion. */
    method Commit(index: Index) returns (ok: bool)
      requires Valid()
      modifies this
      ensures ok <==> firstIndex <= index <= old(lastIndex) && old(commitIndex) <= index
      ensures commitIndex == if ok then index else old(commitIndex)
      ensures Valid() && log == old(log) && term == old(term) && vote == old(vote) && firstIndex == old(firstIndex)
      ensures ok && index > old(commitIndex) ==> commitTerm == log[index - firstIndex].term
      ensures fsync == old(fsync) && (old(Safe()) ==> Safe())
    {
      hide Loaded, Stored, Anchored, TermsAscend, TermsWithin, OnlyCommits;
      var entry := Get(index);
      if entry.None? || entry.value.index < commitIndex { return false; }
      if entry.value.index == commitIndex { return true; }
      LoadedOf(disk, log, firstIndex);
      var mark := Mark(index, entry.value.term);
      if Safe() { CommitBehind(writes, durable, mark); }
      AnchoredSame(disk, Perform(disk, PutCommit(mark)), log, firstIndex);
      Perform1(PutCommit(mark));
      LoadedOf(disk, log, firstIndex);
      commitIndex := index;
      commitTerm := entry.value.term;
      return true;
    }

    /** An entry with this index and term, or the last entry of the snapshot. */
    method Has(index: Index, term': Term) returns (has: bool)
      requires Shaped()
      ensures has <==>
        || (firstIndex <= index <= lastIndex && log[index - firstIndex].term == term')
        || (0 < index == firstIndex - 1 && index <= lastIndex && term' == snapshotTerm)
    {
      if index == 0 || index > lastIndex { return false; }
      if index + 1 == firstIndex && term' == snapshotTerm && index > 0 { return true; }
      if index < firstIndex { return false; }
      if index == lastIndex && term' == lastTerm { return true; }
      var entry := Get(index);
      return entry.Some? && entry.value.term == term';
    }

    /** The stored entries with indexes in [lo, hi], in index order. */
    method Scan(lo: Index, hi: Index) returns (es: seq<Entry>)
      requires Shaped()
      ensures es == Between(log, firstIndex, lo, hi)
    {
      hide Stored, Orderly, TermsWithin, Between;
      es := [];
      if lo > hi {
        NothingBetween(log, firstIndex, lo, hi);
        return;
      }
      for i := lo to hi + 1
        invariant es == if i == lo then [] else Between(log, firstIndex, lo, i - 1)
      {
        var entry := Get(i);
        BetweenStep(log, firstIndex, lo, i);
        if entry.Some? { es := es + [entry.value]; }
      }
    }

    /** The committed entries that the state machine has not seen. */
    method ScanApply(applied: Index) returns (es: seq<Entry>)
      requires Shaped()
      ensures es == if applied >= commitIndex then [] else Between(log, firstIndex, applied + 1, commitIndex)
    {
      if applied >= commitIndex { return []; }
      es := Scan(applied + 1, commitIndex);
    }

    /** The last configuration among the retained entries. */
    method LatestMembership() returns (found: Option<Entry>)
      requires Shaped()
      ensures found.None? ==> forall i :: 0 <= i < |log| ==> log[i].membership.None?
      ensures found.Some? ==> exists i :: LastWithMembership(log, i) && log[i] == found.value
    {
      hide Stored, Loaded, WellFormed, Between;
      AllBetween(disk, log, Cached());
      var es := Scan(1, lastIndex);
      found := None;
      for i := 0 to |es|
        invariant FoundIn(es[..i], found)
      {
        FoundInLonger(es, i, found);
        if es[i].membership.Some? { found := Some(es[i]); }
      }
      assert es[..|es|] == es;
    }

    /** The supplied entries that the log does not hold yet replace its tail. */
    method Splice(es: seq<Entry>) returns (ok: bool)
      requires Valid()
      modifies this
      ensures var r := LogSpec.Splice(old(log), old(firstIndex), old(commitIndex), old(term), es);
        (ok <==> r.Some?) && log == if ok then r.value else old(log)
      ensures Valid() && term == old(term) && vote == old(vote) && firstIndex == old(firstIndex) && commitIndex == old(commitIndex)
      ensures fsync == old(fsync) && (old(Safe()) ==> Safe())
    {
      hide Loaded, Stored, Anchored, TermsAscend, TermsWithin, OnlyCommits, Matching;
      if es == [] { return true; }
      var begin, end := es[0], es[|es| - 1];
      if begin.index == 0 || begin.term == 0 { return false; }
      if exists i :: 0 <= i < |es| - 1 && es[i].index + 1 != es[i + 1].index { return false; }
      if exists i :: 0 <= i < |es| - 1 && es[i].term > es[i + 1].term { return false; }
      if end.term > term { return false; }
      assert WellShaped(es, term);
      hide WellShaped, WellFormed;
      var base := Get(begin.index - 1);
      if base.Some? && begin.term < base.value.term { return false; }
      if base.None? && begin.index != 1 { return false; }
      SuppliedNumbers(es);
      var k := SkipPresent(es);
      if k.None? { return false; }
      if k.value == |es| { return true; }
      if es[k.value].index <= commitIndex { return false; }
      Overwrite(es, k.value);
      return true;
    }

    /** How many of the supplied entries are stored already; None when the scan fails
        an assertion. */
    method SkipPresent(es: seq<Entry>) returns (k: Option<nat>)
      requires Shaped() && es != [] && Numbered(es, es[0].index) && es[0].index <= lastIndex + 1
      ensures es[0].index >= firstIndex ==> k == Matching(log, es[0].index - firstIndex, es)
      ensures es[0].index < firstIndex ==> k.None? || k == Some(0)
    {
      hide Loaded, Stored, WellFormed, Between, Matching, Numbered, Clashes;
      NumberedInside(disk, log, Cached());
      var stored := Scan(es[0].index, es[|es| - 1].index);
      if es[0].index < firstIndex {
        OverlapBefore(log, firstIndex, es);
        k := SkipEqual(stored, es);
        SkippedBefore(es, firstIndex, stored, k);
      } else {
        ghost var off := es[0].index - firstIndex;
        Overlap(log, firstIndex, es);
        k := SkipEqual(stored, es);
        SkippedIsMatching(log, firstIndex, es, off, stored, k);
      }
    }

    /** Write es[k..] over the log from there on, and delete what was behind. */
    method Overwrite(es: seq<Entry>, k: nat)
      requires Valid() && es != [] && k < |es| && es[0].index >= firstIndex && es[k].index > commitIndex
      requires WellShaped(es, term) && Touches(log, firstIndex, es) && Numbered(es, es[0].index)
      requires Matching(log, es[0].index - firstIndex, es) == Some(k)
      modifies this
      ensures old(LogSpec.Splice(log, firstIndex, commitIndex, term, es)) == Some(log)
      ensures Valid() && term == old(term) && vote == old(vote) && firstIndex == old(firstIndex) && commitIndex == old(commitIndex)
      ensures fsync == old(fsync) && (old(Safe()) ==> Safe())
    {
      hide Loaded, Stored, WellFormed, Matching, Overlaid, WellShaped, Touches, Trimmed, OnlyCommits, CommitOf, Holds, LogSpec.Splice;
      ghost var off := es[0].index - firstIndex;
      CommitInside(disk, log, Cached());
      WriteOver(es, k);
      ghost var written := disk;
      DropBehind(es[|es| - 1].index);
      MaybeFlush();
      FlushedSafe(writes);
      OverwriteKeeps(old(disk), written, disk, log, Cached(), es, off, k);
      log := log[..off] + es;
      lastIndex := es[|es| - 1].index;
      lastTerm := es[|es| - 1].term;
    }

    method WriteOver(es: seq<Entry>, k: nat)
      requires disk == Stored(writes) && Holds(disk, log, firstIndex) && es != [] && k <= |es| && Numbered(es, es[0].index)
      modifies this`disk, this`writes
      ensures disk == Stored(writes) == old(disk).(entries := disk.entries) && |writes| >= |old(writes)|
      ensures Overlaid(disk, log, firstIndex, es, k, |es|)
    {
      hide Stored, Overlaid, Holds;
      StartOverlay(disk, log, firstIndex, es, k);
      for i := k to |es|
        invariant disk == Stored(writes) == old(disk).(entries := disk.entries) && |writes| >= |old(writes)|
        invariant Overlaid(disk, log, firstIndex, es, k, i)
      {
        Overlay(disk, log, firstIndex, es, k, i);
        Perform1(PutEntry(es[i]));
      }
    }

    method DropBehind(end: Index)
      requires disk == Stored(writes)
      modifies this`disk, this`writes
      ensures disk == Stored(writes) == old(disk).(entries := disk.entries) && |writes| >= |old(writes)|
      ensures Trimmed(disk, old(disk), end, Max(end, lastIndex) + 1)
    {
      hide Stored;
      var x := end + 1;
      while x <= lastIndex
        invariant end < x <= Max(end, lastIndex) + 1
        invariant disk == Stored(writes) == old(disk).(entries := disk.entries) && |writes| >= |old(writes)|
        invariant Trimmed(disk, old(disk), end, x)
      {
        Perform1(DropEntry(x));
        x := x + 1;
      }
    }

    // -------------------------------------------------------- compaction

    /** Compacting so would leave fields that do not match the disk: back to index 0
        after a compaction, or up to the last entry with another term than its own. */
    ghost predicate Misplaced(index: Index, term': Term)
      reads this
    {
      (index == 0 && firstIndex > 1) || (firstIndex <= index == lastIndex && term' != lastTerm)
    }

    /** Drop the entries up to a committed index that a snapshot covers. As that index
        is never beyond the last one, the last index stays as it is. */
    method CompactTo(index: Index, term': Term) returns (ok: bool)
      requires Valid()
      modifies this
      ensures ok <==> index <= old(commitIndex)
      ensures term == old(term) && vote == old(vote) && commitIndex == old(commitIndex) && fsync == old(fsync)
      ensures ok && index >= old(firstIndex) ==>
        firstIndex == index + 1 && snapshotTerm == term' && log == old(log)[index + 1 - old(firstIndex)..]
      ensures !(ok && index >= old(firstIndex)) ==> log == old(log)
      ensures ok ==> (Cached() == Loaded(disk) <==> !old(Misplaced(index, term')))
      ensures !(ok && old(Misplaced(index, term'))) ==> Valid()
      ensures old(Safe()) ==> Safe()
    {
      hide Stored, WellFormed, Loaded, OnlyCommits, CommitOf, Holds, Orderly, TermsWithin;
      if index > commitIndex { return false; }
      if index + 1 <= firstIndex && index > 0 { return true; }
      CommitInside(disk, log, Cached());
      DropUpTo(index);
      ghost var dropped := disk;
      Perform1(PutMeta(Mark(index, term')));
      MaybeFlush();
      FlushedSafe(writes);
      if index == 0 {
        CompactToZero(old(disk), disk, log, Cached(), term');
      } else {
        HoldsSame(dropped, disk, log[index + 1 - firstIndex..], index + 1);
        CompactKeeps(old(disk), disk, log, Cached(), index, term');
        log := log[index + 1 - firstIndex..];
      }
      firstIndex := index + 1;
      snapshotTerm := term';
      return true;
    }

    /** Throw the whole log away in favour of a snapshot. */
    method ResetWithSnapshot(index: Index, term': Term)
      requires Valid()
      modifies this
      ensures log == [] && firstIndex == index + 1 && lastIndex == commitIndex == index
      ensures snapshotTerm == lastTerm == commitTerm == term'
      ensures term == old(term) && vote == old(vote) && fsync == old(fsync)
      ensures Cached() == Loaded(disk) <==> index > 0 || term' == 0
      ensures index > 0 || term' == 0 ==> Valid()
      ensures old(Safe()) ==> Safe()
    {
      hide Stored, WellFormed, Loaded, OnlyCommits, CommitOf;
      DropAll();
      Perform1(PutMeta(Mark(index, term')));
      Perform1(PutCommit(Mark(index, term')));
      ResetKeeps(old(disk), disk, log, Cached(), index, term');
      commitIndex := index;
      commitTerm := term';
      MaybeFlush();
      FlushedSafe(writes);
      log := [];
      firstIndex := index + 1;
      snapshotTerm := term';
      lastIndex := index;
      lastTerm := term';
    }

    method DropAll()
      requires disk == Stored(writes)
      modifies this`disk, this`writes
      ensures disk == Stored(writes) == old(disk).(entries := map[]) && |writes| >= |old(writes)|
    {
      hide Stored;
      var rest := disk.entries.Keys;
      while rest != {}
        invariant disk == Stored(writes) == old(disk).(entries := disk.entries) && |writes| >= |old(writes)|
        invariant disk.entries.Keys == rest
        decreases |rest|
      {
        var x :| x in rest;
        Perform1(DropEntry(x));
        rest := rest - {x};
      }
    }

    method DropUpTo(index: Index)
      requires disk == Stored(writes) && Holds(disk, log, firstIndex) && index <= lastIndex && lastIndex + 1 == firstIndex + |log|
      requires 1 <= firstIndex && (index == 0 || firstIndex <= index)
      modifies this`disk, this`writes
      ensures disk == Stored(writes) == old(disk).(entries := disk.entries) && |writes| >= |old(writes)|
      ensures index == 0 ==> disk.entries == old(disk).entries
      ensures index > 0 ==> Holds(disk, log[index + 1 - firstIndex..], index + 1)
    {
      hide Stored;
      var x := firstIndex;
      while x <= index
        invariant firstIndex <= x <= Max(firstIndex, index + 1)
        invariant disk == Stored(writes) == old(disk).(entries := disk.entries) && |writes| >= |old(writes)|
        invariant x <= lastIndex + 1 && Holds(disk, log[x - firstIndex..], x)
        invariant x == firstIndex ==> disk.entries == old(disk).entries
      {
        assert log[x + 1 - firstIndex..] == log[x - firstIndex..][1..];
        Perform1(DropEntry(x));
        x := x + 1;
      }
    }
  }

  method Outermost(s: set<Index>) returns (lo: Index, hi: Index)
    requires s != {}
    ensures lo == Lowest(s) && hi == Highest(s)
  {
    var x :| x in s;
    lo, hi := x, x;
    var rest := s - {x};
    while rest != {}
      invariant rest <= s && lo in s && hi in s
      invariant forall i :: i in s - rest ==> lo <= i <= hi
      decreases |rest|
    {
      x :| x in rest;
      assert forall i :: i in s - (rest - {x}) ==> i == x || i in s - rest;
      rest := rest - {x};
      if x < lo { lo := x; }
      if x > hi { hi := x; }
    }
    assert s - {} == s;
    assert Lowest(s) in s && Highest(s) in s;
  }

  /** What a disk that differs in the commit mark alone still holds. */
  lemma ReopenedWellFormed(d: Disk, d': Disk, log: seq<Entry>, c: Cache)
    requires WellFormed(d, log, c) && c == Loaded(d)
    requires SameButCommit(d', d) && Value(d'.commit).index <= Value(d.commit).index
    ensures WellFormed(d', log, Loaded(d'))
    ensures Loaded(d') == c.(commit := Loaded(d').commit, commitTerm := Loaded(d').commitTerm)
    ensures Loaded(d').commit <= c.commit
  {
    hide Loaded;
    AnchoredSame(d, d', log, c.first);
    LoadedOf(d, log, c.first);
    LoadedOf(d', log, c.first);
  }

  /** Reopen the log after a crash at which the first k writes had reached the disk,
      among them everything flushed: only commit progress can be lost. Without a
      crash nothing is. */
  method Reopen(l: RaftLog, ghost k: nat, survived: Disk) returns (l': RaftLog)
    requires l.Valid() && l.Safe() && l.durable <= k <= |l.writes| && survived == Stored(l.writes[..k])
    ensures fresh(l') && l'.Valid() && l'.Safe() && l'.log == l.log
    ensures l'.Cached() == l.Cached().(commit := l'.commitIndex, commitTerm := l'.commitTerm)
    ensures l'.commitIndex <= l.commitIndex
    ensures k == |l.writes| ==> l'.Cached() == l.Cached()
  {
    CrashKeepsAllButCommit(l.writes, l.durable, k);
    ReopenedWellFormed(l.disk, survived, l.log, l.Cached());
    assert k == |l.writes| ==> l.writes[..k] == l.writes;
    FlushedSafe(l.writes[..k]);
    hide Loaded, WellFormed, Stored, OnlyCommits;
    l' := new RaftLog(survived, l.writes[..k], l.log);
  }

  /** Both run along; None stands for the failed assertions of the loop. */
  method SkipEqual(stored: seq<Entry>, es: seq<Entry>) returns (k: Option<nat>)
    requires |stored| <= |es|
    ensures k.Some? ==> k.value <= |stored| && stored[..k.value] == es[..k.value]
    ensures k.Some? && k.value < |stored| ==> stored[k.value].index == es[k.value].index && stored[k.value].term != es[k.value].term
    ensures k.None? ==> exists n :: 0 <= n < |stored| && Clashes(stored, es, n)
  {
    var n := 0;
    while n < |stored|
      invariant n <= |stored| && stored[..n] == es[..n]
    {
      var e := stored[n];
      if e.index != es[n].index {
        assert Clashes(stored, es, n);
        return None;
      }
      if e.term != es[n].term { break; }
      if e.command != es[n].command || e.membership != es[n].membership {
        assert Clashes(stored, es, n);
        return None;
      }
      n := n + 1;
    }
    return Some(n);
  }

  ghost predicate Clashes(stored: seq<Entry>, es: seq<Entry>, n: int)
    requires |stored| <= |es|
  {
    && 0 <= n < |stored| && stored[..n] == es[..n] && stored[n] != es[n]
    && (stored[n].index == es[n].index ==> stored[n].term == es[n].term)
  }

  lemma StoredSlice(log: seq<Entry>, off: nat, stored: seq<Entry>, n: nat)
    requires off + |stored| <= |log| && stored == log[off..off + |stored|] && n <= |stored|
    ensures stored[..n] == log[off..off + n] && (n < |stored| ==> stored[n] == log[off + n])
  {
  }

  /** Stored entries that begin behind the supplied ones are never taken for them. */
  lemma SkippedBefore(es: seq<Entry>, first: Index, stored: seq<Entry>, k: Option<nat>)
    requires es != [] && es[0].index < first && |stored| <= |es| && (stored != [] ==> stored[0].index == first)
    requires k.Some? ==> k.value <= |stored| && stored[..k.value] == es[..k.value]
    ensures k.None? || k == Some(0)
  {
    assert forall n :: 0 < n <= |stored| && stored[..n] == es[..n] ==> stored[..n][0] == es[..n][0];
  }

  lemma SkippedIsMatching(log: seq<Entry>, first: Index, es: seq<Entry>, off: nat, stored: seq<Entry>, k: Option<nat>)
    requires es != [] && Numbered(log, first) && Numbered(es, first + off) && off <= |log|
    requires stored == log[off..Min(off + |es|, |log|)]
    requires k.Some? ==> k.value <= |stored| && stored[..k.value] == es[..k.value]
    requires k.Some? && k.value < |stored| ==> stored[k.value].term != es[k.value].term
    requires k.None? ==> exists n :: 0 <= n < |stored| && Clashes(stored, es, n)
    ensures k == Matching(log, off, es)
  {
    match k
    case Some(n) =>
      StoredSlice(log, off, stored, n);
      MatchingIffHolds(log, off, es, n);
    case None =>
      var n :| 0 <= n < |stored| && Clashes(stored, es, n);
      StoredSlice(log, off, stored, n);
      ClashIsNone(log, off, es, n);
  }
}
