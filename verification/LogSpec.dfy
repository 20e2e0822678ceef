/** What the operations of the Raft log (src/raft/log.rs) mean on the sequence of
    retained entries. `first` is the index of the first retained entry; it is 1
    until the log has been compacted. */
module LogSpec {
  import opened Basics
  import opened Machine

  function LastTerm(log: seq<Entry>): Term {
    if log == [] then 0 else log[|log| - 1].term
  }

  /** The term at an index of an uncompacted log, 0 outside it. */
  function TermAt(log: seq<Entry>, index: Index): Term {
    if 1 <= index <= |log| then log[index - 1].term else 0
  }

  predicate Has(log: seq<Entry>, index: Index, term: Term) {
    1 <= index <= |log| && log[index - 1].term == term
  }

  /** Entries are numbered consecutively from `first`. */
  predicate Numbered(log: seq<Entry>, first: Index) {
    forall i :: 0 <= i < |log| ==> log[i].index == first + i
  }

  predicate TermsAscend(log: seq<Entry>) {
    forall i, j :: 0 <= i <= j < |log| ==> log[i].term <= log[j].term
  }

  // ------------------------------------------------------------ splice

  /** Shape checks on the supplied entries, as `splice` asserts them. */
  predicate WellShaped(es: seq<Entry>, term: Term) {
    && (es != [] ==> es[0].index > 0 && es[0].term > 0 && es[|es| - 1].term <= term)
    && (forall i :: 0 <= i < |es| - 1 ==> es[i].index + 1 == es[i + 1].index)
    && (forall i :: 0 <= i < |es| - 1 ==> es[i].term <= es[i + 1].term)
  }

  /** The entry before the first supplied one must be stored, with no higher term. */
  predicate Touches(log: seq<Entry>, first: Index, es: seq<Entry>)
    requires es != []
  {
    var base := es[0].index - 1;
    if first <= base < first + |log| then log[base - first].term <= es[0].term
    else es[0].index == 1 && first == 1
  }

  /** How many supplied entries the log already holds from position `off` on; None
      when an entry has the same index and term but another payload. */
  function Matching(log: seq<Entry>, off: nat, es: seq<Entry>): (r: Option<nat>)
    ensures r.Some? ==> r.value <= |es| && off + r.value <= Max(off, |log|)
    decreases |es|
  {
    if es == [] || off >= |log| || log[off].term != es[0].term then Some(0)
    else if log[off] != es[0] then None
    else
      match Matching(log, off + 1, es[1..])
      case None => None
      case Some(k) => Some(k + 1)
  }

  /** None stands for a failed assertion. */
  function Splice(log: seq<Entry>, first: Index, commit: Index, term: Term, es: seq<Entry>): Option<seq<Entry>> {
    if es == [] then Some(log)
    else if !WellShaped(es, term) || !Touches(log, first, es) || es[0].index < first then None
    else
      var off := es[0].index - first;
      match Matching(log, off, es)
      case None => None
      case Some(k) =>
        if k == |es| then Some(log)
        else if es[k].index <= commit then None
        else Some(log[..off + k] + es[k..])
  }

  // ------------------------------------------------ what splice comes to

  /** The log holds the first k supplied entries, and not the next one. */
  predicate HoldsExactly(log: seq<Entry>, off: nat, es: seq<Entry>, k: nat) {
    && k <= |es| && off + k <= |log| && log[off..off + k] == es[..k]
    && (k == |es| || off + k == |log| || log[off + k].term != es[k].term)
  }

  /** `Matching` finds that k if there is one, and nothing else. */
  lemma {:induction false} MatchingIffHolds(log: seq<Entry>, off: nat, es: seq<Entry>, k: nat)
    requires off <= |log|
    ensures Matching(log, off, es) == Some(k) <==> HoldsExactly(log, off, es, k)
    decreases |es|
  {
    if !(es == [] || off == |log| || log[off].term != es[0].term) && k > 0 {
      MatchingIffHolds(log, off + 1, es[1..], k - 1);
      if HoldsExactly(log, off, es, k) {
        assert log[off] == log[off..off + k][0] == es[0];
        assert log[off + 1..off + k] == log[off..off + k][1..] == es[1..][..k - 1];
      }
      if log[off] == es[0] && HoldsExactly(log, off + 1, es[1..], k - 1) {
        assert log[off..off + k] == [log[off]] + log[off + 1..off + k];
        assert es[..k] == [es[0]] + es[1..][..k - 1];
      }
    }
  }

  /** All supplied entries are already there. */
  predicate Present(log: seq<Entry>, off: nat, es: seq<Entry>) {
    off + |es| <= |log| && log[off..off + |es|] == es
  }

  /** The log that starts at `first` keeps its numbering and its terms in order. */
  predicate Orderly(log: seq<Entry>, first: Index) {
    Numbered(log, first) && TermsAscend(log)
  }

  /** Splicing changes nothing if every supplied entry is present; otherwise the log
      ends with the supplied entries, on top of what preceded them. Numbering, term
      order and the committed prefix survive. */
  lemma SpliceMeaning(log: seq<Entry>, first: Index, commit: Index, term: Term, es: seq<Entry>)
    requires Orderly(log, first) && 1 <= first <= commit + 1 <= first + |log|
    requires es != [] && Splice(log, first, commit, term, es).Some?
    ensures var r, off := Splice(log, first, commit, term, es).value, es[0].index - first;
      && 0 <= off <= |log|
      && r == (if Present(log, off, es) then log else log[..off] + es)
      && Orderly(r, first) && commit + 1 <= first + |r|
      && r[..commit + 1 - first] == log[..commit + 1 - first]
  {
    var off := es[0].index - first;
    assert 0 <= off <= |log| && (off == 0 || log[off - 1].term <= es[0].term);
    var k := Matching(log, off, es).value;
    MatchingIffHolds(log, off, es, k);
    SuppliedNumbers(es);
    assert k < |es| ==> es[k].index > commit && Splice(log, first, commit, term, es) == Some(log[..off + k] + es[k..]);
    assert k == |es| ==> Splice(log, first, commit, term, es) == Some(log);
    JoinedOrderly(log, first, es, off);
    hide Splice, Matching, WellShaped, Touches, TermsAscend;
    if k < |es| { Overwritten(log, off, es, k, commit + 1 - first); }
  }

  /** Past the entries they share, the supplied ones replace the rest. */
  lemma Overwritten(log: seq<Entry>, off: nat, es: seq<Entry>, k: nat, kept: nat)
    requires HoldsExactly(log, off, es, k) && k < |es| && kept <= off + k
    ensures !Present(log, off, es)
    ensures log[..off + k] + es[k..] == log[..off] + es
    ensures (log[..off] + es)[..kept] == log[..kept]
  {
    assert off + |es| <= |log| ==> log[off..off + |es|][k] == log[off + k];
    assert log[..off + k] == log[..off] + log[off..off + k];
    assert es == es[..k] + es[k..];
    assert (log[..off] + es)[..off + k] == log[..off + k];
    assert log[..off + k][..kept] == log[..kept];
  }

  lemma {:induction false} SuppliedNumbers(es: seq<Entry>)
    requires es != [] && forall i :: 0 <= i < |es| - 1 ==> es[i].index + 1 == es[i + 1].index
    ensures Numbered(es, es[0].index)
    decreases |es|
  {
    if |es| > 1 {
      var front := es[..|es| - 1];
      assert forall i :: 0 <= i < |front| ==> front[i] == es[i];
      SuppliedNumbers(front);
      assert es[|es| - 2].index == front[|es| - 2].index;
    }
  }

  lemma {:induction false} SuppliedTerms(es: seq<Entry>)
    requires forall i :: 0 <= i < |es| - 1 ==> es[i].term <= es[i + 1].term
    ensures TermsAscend(es)
    decreases |es|
  {
    if |es| > 1 {
      var front := es[..|es| - 1];
      assert forall i :: 0 <= i < |front| ==> front[i] == es[i];
      SuppliedTerms(front);
      forall i, j | 0 <= i <= j < |es| ensures es[i].term <= es[j].term {
        if i < |front| { assert front[i].term <= front[|front| - 1].term; }
        if j < |front| { assert front[i].term <= front[j].term; }
      }
    }
  }

  lemma JoinedOrderly(log: seq<Entry>, first: Index, es: seq<Entry>, off: nat)
    requires Orderly(log, first) && es != [] && off <= |log| && es[0].index == first + off
    requires Numbered(es, es[0].index) && (forall i :: 0 <= i < |es| - 1 ==> es[i].term <= es[i + 1].term)
    requires off == 0 || log[off - 1].term <= es[0].term
    ensures Orderly(log[..off] + es, first)
  {
    SuppliedTerms(es);
    var r := log[..off] + es;
    forall i, j | 0 <= i <= j < |r| ensures r[i].term <= r[j].term {
      if i < off <= j { assert log[i].term <= log[off - 1].term && es[0].term <= es[j - off].term; }
    }
  }

  /** The supplied entries are there from position `off` on, up to a point past the
      commit index. */
  ghost predicate Fitting(log: seq<Entry>, off: nat, commit: Index, es: seq<Entry>) {
    exists k: nat :: HoldsExactly(log, off, es, k) && (k == |es| || es[k].index > commit)
  }

  lemma FittingIsMatching(log: seq<Entry>, off: nat, commit: Index, es: seq<Entry>)
    requires off <= |log|
    ensures Fitting(log, off, commit, es) <==>
      var k := Matching(log, off, es); k.Some? && (k.value == |es| || es[k.value].index > commit)
  {
    forall k: nat ensures Matching(log, off, es) == Some(k) <==> HoldsExactly(log, off, es, k) { MatchingIffHolds(log, off, es, k); }
    hide Matching, HoldsExactly;
  }

  /** When splicing fails an assertion: the entries are malformed or leave a gap, an
      entry with the stored index and term differs in its payload, or a committed
      entry would be overwritten. */
  lemma SpliceDefined(log: seq<Entry>, first: Index, commit: Index, term: Term, es: seq<Entry>)
    requires Orderly(log, first) && 1 <= first <= commit + 1 <= first + |log|
    ensures Splice(log, first, commit, term, es).Some? <==>
      || es == []
      || (&& WellShaped(es, term) && Touches(log, first, es) && first <= es[0].index
          && Fitting(log, es[0].index - first, commit, es))
  {
    if es != [] && WellShaped(es, term) && Touches(log, first, es) && first <= es[0].index {
      hide WellShaped, TermsAscend, Matching, Fitting;
      FittingIsMatching(log, es[0].index - first, commit, es);
    }
  }

  /** Entries that continue a log from its first index splice only if that is index 1:
      a compacted log has dropped the entry they would have to follow. */
  lemma ContinuingFromFirst(log: seq<Entry>, first: Index, commit: Index, term: Term, es: seq<Entry>)
    requires Orderly(log, first) && 1 <= first <= commit + 1 <= first + |log|
    requires es != [] && es[0].index == first
    ensures Splice(log, first, commit, term, es).Some? <==> first == 1 && WellShaped(es, term) && Fitting(log, 0, commit, es)
  {
    SpliceDefined(log, first, commit, term, es);
    hide Splice, Fitting;
  }
}
