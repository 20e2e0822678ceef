/** The configuration a follower holds in force while a leader's entries replace
    part of its log. Entries are adopted as they come (src/raft/node.rs:379-393) and
    nothing is taken back, so the configuration in force can part from the one that
    the log ends with, which a restart would find (src/raft/node.rs:396-420). */
module Adoption {
  import opened Basics
  import opened Configuration
  import opened Machine
  import opened LogSpec
  import opened Messages
  import opened RaftNode

  function LastConfiguration(es: seq<Entry>): Option<MembershipEntry> {
    if es == [] then None
    else if es[|es| - 1].membership.Some? then es[|es| - 1].membership
    else LastConfiguration(es[..|es| - 1])
  }

  /** The last configuration of a log, over the one the node was set up with. */
  function Latest(start: MembershipEntry, log: seq<Entry>): MembershipEntry {
    match LastConfiguration(log)
    case None => start
    case Some(c) => c
  }

  lemma {:induction false} RestoresLatest(start: MembershipState, log: seq<Entry>, commit: Index)
    ensures RestoreMembership(start, log, commit).active == Latest(start.active, log)
    decreases |log|
  {
    if log != [] { RestoresLatest(start, log[..|log| - 1], commit); }
  }

  /** Entry k carries the last configuration of the log. */
  predicate LastAt(log: seq<Entry>, k: int) {
    0 <= k < |log| && log[k].membership.Some? && forall j :: k < j < |log| ==> log[j].membership.None?
  }

  /** What a restart puts in force: the configuration of the last entry that carries one,
      settled if it is Simple and committed, or else the one the node is set up with. */
  lemma {:induction false} RestoreMeans(start: MembershipState, log: seq<Entry>, commit: Index)
    requires Indexed(log)
    ensures var r := RestoreMembership(start, log, commit);
      && (forall k :: LastAt(log, k) ==> r.active == log[k].membership.value && (r.changePending <==> r.active.Joint? || k >= commit))
      && ((forall k :: 0 <= k < |log| ==> log[k].membership.None?) ==> r == start)
    decreases |log|
  {
    LastAtIn(log);
    hide LastAt;
    if log != [] {
      var front := log[..|log| - 1];
      RestoreMeans(start, front, commit);
      if log[|log| - 1].membership.Some? { LastAtEnd(log); } else { LastAtFront(log, front); }
    }
  }

  lemma LastAtIn(log: seq<Entry>)
    ensures forall k :: LastAt(log, k) ==> 0 <= k < |log| && log[k].membership.Some?
  {
  }

  lemma LastAtEnd(log: seq<Entry>)
    requires log != [] && log[|log| - 1].membership.Some?
    ensures forall k :: LastAt(log, k) ==> k == |log| - 1
  {
  }

  lemma LastAtFront(log: seq<Entry>, front: seq<Entry>)
    requires log != [] && log[|log| - 1].membership.None? && front == log[..|log| - 1]
    ensures forall k :: LastAt(log, k) ==> 0 <= k < |front| && LastAt(front, k) && front[k] == log[k]
    ensures (forall k :: 0 <= k < |log| ==> log[k].membership.None?) ==> forall k :: 0 <= k < |front| ==> front[k].membership.None?
  {
    assert forall k :: 0 <= k < |front| ==> front[k] == log[k];
  }

  lemma {:induction false} LastOfJoined(a: seq<Entry>, b: seq<Entry>)
    ensures LastConfiguration(a + b) == if LastConfiguration(b).Some? then LastConfiguration(b) else LastConfiguration(a)
    decreases |b|
  {
    if b == [] {
      assert a + b == a;
    } else {
      LastOfJoined(a, b[..|b| - 1]);
      assert (a + b)[..|a + b| - 1] == a + b[..|b| - 1];
    }
  }

  /** What applying committed entries does to a change under way: the last configuration
      among them decides whether it is over. */
  lemma {:induction false} ApplyingSettles(n: Node)
    requires Indexed(n.log) && Applied(n.machine) <= n.commit <= |n.log|
    ensures var r := MaybeApply(n).membership;
      && r.active == n.membership.active
      && r.changePending == match LastConfiguration(n.log[Applied(n.machine)..n.commit])
                            case None => n.membership.changePending
                            case Some(c) => c.Joint?
    decreases n.commit - Applied(n.machine)
  {
    hide Apply, LastConfiguration;
    LastOfNone();
    var es := n.log[Applied(n.machine)..n.commit];
    if Applied(n.machine) < n.commit {
      var entry := n.log[Applied(n.machine)];
      LastOfOne(entry);
      var n1 := n.(
        machine := Apply(n.machine, entry).0,
        membership := if entry.membership.Some? then n.membership.OnCommit(entry.membership.value) else n.membership);
      ApplyAdvances(n.machine, entry);
      ApplyingSettles(n1);
      assert es == [entry] + n.log[Applied(n1.machine)..n.commit];
      LastOfJoined([entry], n.log[Applied(n1.machine)..n.commit]);
    }
  }

  lemma LastOfNone()
    ensures LastConfiguration([]) == None
  {
  }

  lemma LastOfOne(entry: Entry)
    ensures LastConfiguration([entry]) == entry.membership
  {
  }

  /** Adopting entries one by one leaves the last configuration among them. */
  lemma {:induction false} AdoptsLast(m: MembershipState, es: seq<Entry>)
    ensures AdoptMembership(m, es) == match LastConfiguration(es) case None => m case Some(c) => MembershipState(c, true)
    decreases |es|
  {
    if es != [] {
      AdoptsLast(if es[0].membership.Some? then m.ApplyEntry(es[0].membership.value) else m, es[1..]);
      LastOfJoined([es[0]], es[1..]);
      assert es == [es[0]] + es[1..];
      assert LastConfiguration([es[0]]) == es[0].membership;
    }
  }

  /** The node has in force what a restart would put in force. */
  predicate Settled(start: MembershipState, n: Node) {
    n.membership.active == RestoreMembership(start, n.log, n.commit).active
  }

  /** The two ways in which accepted entries leave the wrong configuration in force:
      entries the log already has bring back an older configuration than one after
      them, or replacing the tail drops the configuration in force. */
  predicate Unsettles(start: MembershipState, n: Node, base: Index, es: seq<Entry>)
    requires base <= |n.log|
  {
    if Present(n.log, base, es) then
      var after := LastConfiguration(n.log[base + |es|..]);
      LastConfiguration(es).Some? && after.Some? && LastConfiguration(es) != after
    else
      LastConfiguration(es).None? && Latest(start.active, n.log[..base]) != n.membership.active
  }

  /** After splicing, the configuration in force is the log's last one exactly if the
      entries were not of those two kinds. */
  lemma SplicingSettles(start: MembershipState, n: Node, es: seq<Entry>, log: seq<Entry>)
    requires Orderly(n.log, 1) && n.commit <= |n.log| && Settled(start, n)
    requires es != [] && Splice(n.log, 1, n.commit, n.term, es) == Some(log)
    ensures 1 <= es[0].index <= |n.log| + 1
    ensures var n' := n.(log := log, membership := AdoptMembership(n.membership, es));
      Settled(start, n') <==> !Unsettles(start, n, es[0].index - 1, es)
  {
    hide Splice, Matching, WellShaped, Touches, TermsAscend, RestoreMembership, AdoptMembership, LastConfiguration;
    SpliceMeaning(n.log, 1, n.commit, n.term, es);
    var base := es[0].index - 1;
    RestoresLatest(start, n.log, n.commit);
    RestoresLatest(start, log, n.commit);
    AdoptsLast(n.membership, es);
    if Present(n.log, base, es) {
      var after := n.log[base + |es|..];
      assert n.log == n.log[..base] + es + after;
      LastOfJoined(n.log[..base] + es, after);
      LastOfJoined(n.log[..base], es);
    } else {
      LastOfJoined(n.log[..base], es);
    }
  }

  /** The same of a follower handling an Append of its leader: what it rejects or
      finds empty changes nothing, what it accepts unsettles it in those two cases. */
  lemma AppendSettles(start: MembershipState, n: Node, e: Envelope)
    requires Ok(n) && TermsAscend(n.log) && n.role.Follower? && n.role.leader == Some(e.from) && e.message.Append?
    requires Settled(start, n) && OnAppend(n, e).node.role.Follower?
    ensures var m := e.message;
      var accepted := m.entries != [] && (m.baseIndex == 0 || Has(n.log, m.baseIndex, m.baseTerm));
      Settled(start, OnAppend(n, e).node) <==>
        !(accepted && m.baseIndex <= |n.log| && Unsettles(start, n, m.baseIndex, m.entries))
  {
    var m := e.message;
    if m.baseIndex == 0 || Has(n.log, m.baseIndex, m.baseTerm) {
      var log := Splice(n.log, 1, n.commit, n.term, m.entries).value;
      var n' := n.(log := log, membership := AdoptMembership(n.membership, m.entries));
      assert OnAppend(n, e).node == n';
      if m.entries != [] { SplicingSettles(start, n, m.entries, log); }
    } else {
      assert OnAppend(n, e).node == n;
    }
  }

  // ------------------------------------------------- both ways do happen

  /** What a first leader writes while it takes voter 3 in: its no-op, the Joint
      configuration, and the Simple one once that is committed. */
  const NoOp := Entry(1, 1, None, None)
  const Growing := Joint(Membership({1, 2}), Membership({1, 2, 3}))
  const Grown := Simple(Membership({1, 2, 3}))
  const GrowingEntry := Entry(2, 1, None, Some(Growing))
  const GrownEntry := Entry(3, 1, None, Some(Grown))

  /** A delayed copy of the Append that brought the Joint configuration puts it back in
      force after the Simple one. */
  lemma StaleAppendRevives(n: Node, start: MembershipState)
    requires Ok(n) && n.log == [NoOp, GrowingEntry, GrownEntry] && n.term == 1 && n.membership.active == Grown
    requires n.role == Follower(Some(2), 0, 10, {})
    ensures var r := OnAppend(n, Envelope(2, 1, n.id, Append(1, 1, [GrowingEntry]))).node;
      Settled(start, n) && r.log == n.log && r.membership.active == Growing && !Settled(start, r)
  {
    var es := [GrowingEntry];
    var e := Envelope(2, 1, n.id, Append(1, 1, es));
    assert n.log[1..2] == es && n.log[2..] == [GrownEntry];
    RestoresLatest(start, n.log, n.commit);
    assert Matching(n.log, 1, es) == Some(1) by { assert es[1..] == []; }
    assert Splice(n.log, 1, n.commit, 1, es) == Some(n.log);
    AdoptsLast(n.membership, es);
    AppendSettles(start, n, e);
  }

  /** A new leader's no-op replaces the uncommitted Joint configuration, which stays in
      force on the follower. */
  lemma DroppedStaysInForce(n: Node, start: MembershipState)
    requires Ok(n) && n.log == [NoOp, GrowingEntry] && n.commit == 1 && n.term == 2 && n.membership.active == Growing
    requires n.role == Follower(Some(2), 0, 10, {}) && start.active == Simple(Membership({1, 2}))
    ensures var r := OnAppend(n, Envelope(2, 2, n.id, Append(1, 1, [Entry(2, 2, None, None)]))).node;
      Settled(start, n) && r.log == [NoOp, Entry(2, 2, None, None)] && r.membership == n.membership && !Settled(start, r)
  {
    var es := [Entry(2, 2, None, None)];
    RestoresLatest(start, n.log, n.commit);
    assert Matching(n.log, 1, es) == Some(0);
    assert !Present(n.log, 1, es);
    assert n.log[..1] + es[0..] == [NoOp, Entry(2, 2, None, None)];
    assert WellShaped(es, 2) && Touches(n.log, 1, es) && es[0].index - 1 == 1;
    assert Splice(n.log, 1, 1, 2, es) == Some(n.log[..1] + es[0..]);
    assert LastConfiguration(n.log[..1]) == None by { assert n.log[..1][..0] == []; }
    AppendSettles(start, n, Envelope(2, 2, n.id, Append(1, 1, es)));
  }
}
