/** Changes of configuration under one leader (src/raft/node.rs, src/raft/membership.rs):
    when the configurations in its log go Simple, Joint, Simple, each overlapping its
    neighbours, and when they do not. */
module Reconfiguration {
  import opened Basics
  import opened Configuration
  import opened Machine
  import opened LogSpec
  import opened Messages
  import opened RaftNode
  import opened NodeInvariant

  /** What may come after a configuration. A Simple one is repeated when a leader
      commits its Joint together with it, both from an earlier leader. */
  predicate Succeeds(a: MembershipEntry, b: MembershipEntry) {
    || (a.Simple? && b.Joint? && b.outgoing == a.config)
    || (a.Joint? && b.Simple? && b.config == a.incoming)
    || (a.Simple? && b == a)
  }

  predicate Alternate(cs: seq<MembershipEntry>) {
    forall i :: 0 <= i < |cs| - 1 ==> Succeeds(cs[i], cs[i + 1])
  }

  function Last(cs: seq<MembershipEntry>): MembershipEntry
    requires cs != []
  {
    cs[|cs| - 1]
  }

  /** The configurations of a leader's log since entry `start`, when `settled` was in force. */
  function Chain(n: Node, start: Index, settled: MembershipEntry): seq<MembershipEntry>
    requires start <= |n.log|
  {
    [settled] + Configurations(n.log, start, |n.log|)
  }

  /** The configurations that the leader has not applied. */
  function Pending(n: Node): seq<MembershipEntry>
    requires Applied(n.machine) <= |n.log|
  {
    Configurations(n.log, Applied(n.machine), |n.log|)
  }

  /** The leader's configurations follow one another as they should, and it goes by
      the last of them. */
  predicate InOrder(n: Node, start: Index, settled: MembershipEntry) {
    && GoesByLast(n, start, settled)
    && Alternate(Chain(n, start, settled))
  }

  predicate GoesByLast(n: Node, start: Index, settled: MembershipEntry) {
    && n.role.Leader? && Ok(n) && start <= Applied(n.machine)
    && n.membership.active == Last(Chain(n, start, settled))
  }

  /** Every change among the configurations leads to where m leads. */
  predicate Agreed(cs: seq<MembershipEntry>, m: MembershipEntry) {
    forall c :: c in cs && c.Joint? ==> c.incoming == m.Target()
  }

  predicate NoJoint(cs: seq<MembershipEntry>) {
    forall c :: c in cs ==> c.Simple?
  }

  predicate AllAre(cs: seq<MembershipEntry>, m: MembershipEntry) {
    forall c :: c in cs ==> c == m
  }

  /** One change: a configuration, and perhaps the Simple one it leads to. */
  predicate OneChange(cs: seq<MembershipEntry>) {
    forall i :: 1 <= i < |cs| ==> cs[i] == Simple(cs[0].Target())
  }

  /** The configurations not applied all come from before this leader's term. */
  predicate Inherited(n: Node) {
    forall i, k :: Applied(n.machine) <= i < |n.log| && 0 <= k < |n.log| && n.log[i].membership.Some? && n.log[k].term == n.term ==> i < k
  }

  /** In order, with at most one change not applied, and `changePending` saying so. */
  predicate ChainOk(n: Node, start: Index, settled: MembershipEntry) {
    && InOrder(n, start, settled) && settled.Simple?
    && OneChange(Pending(n))
    && (|Pending(n)| > 1 ==> Inherited(n))
    && (n.membership.changePending <==> Pending(n) != [])
    && (Pending(n) == [] ==> n.membership.active.Simple?)
  }

  // --------------------------------------------- configurations of a log

  lemma {:induction false} ConfigurationsSplit(log: seq<Entry>, lo: Index, mid: Index, hi: Index)
    requires lo <= mid <= hi <= |log|
    ensures Configurations(log, lo, hi) == Configurations(log, lo, mid) + Configurations(log, mid, hi)
    decreases mid - lo
  {
    if lo < mid { ConfigurationsSplit(log, lo + 1, mid, hi); }
  }

  lemma {:induction false} ConfigurationsOfLonger(log: seq<Entry>, e: Entry, lo: Index, hi: Index)
    requires lo <= hi <= |log|
    ensures Configurations(log + [e], lo, hi) == Configurations(log, lo, hi)
    decreases hi - lo
  {
    if lo < hi { ConfigurationsOfLonger(log, e, lo + 1, hi); }
  }

  lemma ConfigurationsNone(log: seq<Entry>, i: Index)
    requires i <= |log|
    ensures Configurations(log, i, i) == []
  {
  }

  lemma ConfigurationsAppended(log: seq<Entry>, e: Entry, lo: Index)
    requires lo <= |log|
    ensures Configurations(log + [e], lo, |log| + 1) ==
      Configurations(log, lo, |log|) + (if e.membership.Some? then [e.membership.value] else [])
  {
    ConfigurationsSplit(log + [e], lo, |log|, |log| + 1);
    ConfigurationsOfLonger(log, e, lo, |log|);
    assert Configurations(log + [e], |log| + 1, |log| + 1) == [];
  }

  lemma {:induction false} ConfigurationsOfPrefix(a: seq<Entry>, b: seq<Entry>, lo: Index, hi: Index)
    requires a <= b && lo <= hi <= |a|
    ensures Configurations(a, lo, hi) == Configurations(b, lo, hi)
    decreases hi - lo
  {
    if lo < hi { ConfigurationsOfPrefix(a, b, lo + 1, hi); }
  }

  /** A log with some configurations appended in the leader's term. */
  function Extended(log: seq<Entry>, term: Term, cs: seq<MembershipEntry>): seq<Entry>
    decreases |cs|
  {
    if cs == [] then log else Extended(log + [Entry(|log| + 1, term, None, Some(cs[0]))], term, cs[1..])
  }

  lemma {:induction false} ExtendedHolds(log: seq<Entry>, term: Term, cs: seq<MembershipEntry>, lo: Index)
    requires lo <= |log|
    ensures var l := Extended(log, term, cs);
      log <= l && |l| == |log| + |cs| && Configurations(l, lo, |l|) == Configurations(log, lo, |log|) + cs
    decreases |cs|
  {
    if cs != [] {
      var e := Entry(|log| + 1, term, None, Some(cs[0]));
      ConfigurationsAppended(log, e, lo);
      ExtendedHolds(log + [e], term, cs[1..], lo);
      hide Configurations, Extended;
      assert [cs[0]] + cs[1..] == cs;
    }
  }

  // ------------------------------------------ steps that change little

  /** The same log, configuration and progress of the state machine. */
  predicate SameChain(n: Node, n': Node) {
    && n'.role.Leader? && n'.id == n.id && n'.term == n.term && n'.log == n.log && n'.machine == n.machine && n'.membership == n.membership
  }

  lemma ChainSame(n: Node, n': Node, start: Index, settled: MembershipEntry)
    requires ChainOk(n, start, settled) && SameChain(n, n') && Ok(n')
    ensures ChainOk(n', start, settled)
  {
  }

  lemma ProposalOk(n: Node, m: MembershipEntry)
    requires n.role.Leader? && Ok(n)
    ensures CanAppend(n) && Ok(ProposeMembership(n, m).node) && ProposeMembership(n, m).node.role.Leader?
  {
    hide Offer;
  }

  lemma AlternateGrows(c: seq<MembershipEntry>, m: MembershipEntry)
    requires c != [] && Alternate(c) && Succeeds(c[|c| - 1], m)
    ensures Alternate(c + [m])
  {
    hide Succeeds;
    var c' := c + [m];
    forall i | 0 <= i < |c'| - 1 ensures Succeeds(c'[i], c'[i + 1]) {
      if i < |c| - 1 { assert c'[i] == c[i] && c'[i + 1] == c[i + 1]; }
    }
  }

  lemma ProposalFrame(n: Node, m: MembershipEntry)
    requires CanAppend(n)
    ensures var r := ProposeMembership(n, m).node;
      r.log == n.log + [Entry(|n.log| + 1, n.term, None, Some(m))] && r.machine == n.machine
      && r.membership == MembershipState(m, true) && r.id == n.id && r.term == n.term && r.commit == n.commit
  {
  }

  lemma AlternateShorter(c: seq<MembershipEntry>, d: seq<MembershipEntry>)
    requires Alternate(c + d)
    ensures Alternate(c)
  {
    hide Succeeds;
    forall i | 0 <= i < |c| - 1 ensures Succeeds(c[i], c[i + 1]) {
      assert Succeeds((c + d)[i], (c + d)[i + 1]);
    }
  }

  /** Simple configurations may be appended exactly if all of them are the one that the
      last configuration leads to. */
  lemma {:induction false} AlternateThen(c: seq<MembershipEntry>, ps: seq<MembershipEntry>)
    requires c != [] && Alternate(c) && NoJoint(ps)
    ensures Alternate(c + ps) <==> AllAre(ps, Simple(Last(c).Target()))
    decreases |ps|
  {
    hide Alternate;
    if ps == [] {
      assert c + ps == c;
    } else {
      var qs, p := ps[..|ps| - 1], ps[|ps| - 1];
      assert ps == qs + [p] && c + ps == c + qs + [p];
      assert p in ps && Last(c + qs) == if qs == [] then Last(c) else Last(qs);
      assert qs != [] ==> Last(qs) in qs;
      assert forall q :: q in qs ==> q in ps;
      AlternateThen(c, qs);
      if Alternate(c + ps) {
        AlternateShorter(c + qs, [p]);
        LastSucceeds(c + qs, p);
      } else if AllAre(ps, Simple(Last(c).Target())) {
        AlternateGrows(c + qs, p);
      }
    }
  }

  lemma LastSucceeds(c: seq<MembershipEntry>, m: MembershipEntry)
    requires c != [] && Alternate(c + [m])
    ensures Succeeds(Last(c), m)
  {
    hide Succeeds;
    assert Succeeds((c + [m])[|c| - 1], (c + [m])[|c|]);
  }

  // ------------------------------------------------- committing

  /** The configurations that the next commit applies. */
  function ToApply(n: Node): seq<MembershipEntry>
    requires n.role.Leader? && Ok(n)
  {
    Configurations(n.log, Applied(n.machine), CommitTarget(n, |n.log|))
  }

  predicate Advances(n: Node)
    requires n.role.Leader?
  {
    n.commit < CommitTarget(n, |n.log|)
  }

  /** What the leader proposes after committing some configurations: the Simple one
      after each Joint. */
  function Proposals(cs: seq<MembershipEntry>): seq<MembershipEntry> {
    if cs == [] then []
    else (if cs[0].Joint? then [Simple(cs[0].incoming)] else []) + Proposals(cs[1..])
  }

  lemma {:induction false} ProposalsAgree(cs: seq<MembershipEntry>, m: MembershipEntry)
    ensures NoJoint(Proposals(cs)) && (Proposals(cs) == [] <==> NoJoint(cs))
    ensures AllAre(Proposals(cs), Simple(m.Target())) <==> Agreed(cs, m)
  {
    if cs != [] {
      ProposalsAgree(cs[1..], m);
      FirstAndRest(cs);
      var first := if cs[0].Joint? then [Simple(cs[0].incoming)] else [];
      assert Proposals(cs) == first + Proposals(cs[1..]);
      assert forall p :: p in Proposals(cs) <==> p in first || p in Proposals(cs[1..]);
      assert cs[0].Joint? ==> first[0] in first;
    }
  }

  lemma FirstAndRest(cs: seq<MembershipEntry>)
    requires cs != []
    ensures forall c :: c in cs <==> c == cs[0] || c in cs[1..]
  {
    assert cs == [cs[0]] + cs[1..];
  }

  /** Some committed change excludes the node, or it is excluded already when a Simple
      configuration commits before any Joint one. */
  predicate Excluded(id: NodeId, active: MembershipEntry, cs: seq<MembershipEntry>) {
    || (exists c :: c in cs && c.Joint? && id !in c.incoming.voters)
    || (cs != [] && cs[0].Simple? && active.Simple? && id !in active.config.voters)
  }

  lemma {:induction false} FollowedBy(n: Node, cs: seq<MembershipEntry>)
    requires n.role.Leader? && Ok(n)
    ensures var r, ps := AfterConfigurations(n, cs), Proposals(cs);
      && r.outcome.node.id == n.id && r.outcome.node.term == n.term
      && r.outcome.node.commit == n.commit && r.outcome.node.machine == n.machine
      && r.outcome.node.log == Extended(n.log, n.term, ps)
      && r.outcome.node.membership == (if ps == [] then n.membership else MembershipState(Last(ps), true))
      && (r.stepDown <==> Excluded(n.id, n.membership.active, cs))
    decreases |cs|
  {
    hide Ok, ProposeMembership, CanAppend, Excluded, SyncProgress;
    NothingExcludes(n.id, n.membership.active);
    if cs != [] {
      ProposalOk(n, Simple(cs[0].Target()));
      ProposalFrame(n, Simple(cs[0].Target()));
      var r := if cs[0].Joint? then ProposeMembership(n, Simple(cs[0].incoming)) else Stay(n);
      assert (if cs[0].Joint? then Proposals(cs)[1..] else Proposals(cs)) == Proposals(cs[1..]);
      SyncedOk(r.node);
      FollowedBy(SyncProgress(r.node), cs[1..]);
      ExcludedStepwise(n.id, n.membership.active, cs);
    }
  }

  lemma NothingExcludes(id: NodeId, active: MembershipEntry)
    ensures !Excluded(id, active, [])
  {
  }

  lemma ExcludedStepwise(id: NodeId, active: MembershipEntry, cs: seq<MembershipEntry>)
    requires cs != []
    ensures var next := if cs[0].Joint? then Simple(cs[0].incoming) else active;
      Excluded(id, active, cs) <==> (next.Simple? && id !in next.AllVoters()) || Excluded(id, next, cs[1..])
  {
    FirstAndRest(cs);
  }

  lemma ApplyNextMembership(n: Node)
    requires n.role.Leader? && Ok(n) && Applied(n.machine) < n.commit
    ensures var r, m := ApplyNext(n).node, n.log[Applied(n.machine)].membership;
      r.log == n.log && r.id == n.id && r.term == n.term && r.commit == n.commit
      && r.membership == if m.Some? then n.membership.OnCommit(m.value) else n.membership
  {
    hide Apply;
  }

  lemma {:induction false} ApplyAllMembership(n: Node)
    requires n.role.Leader? && Ok(n)
    ensures var r, cs := ApplyAll(n).node, Configurations(n.log, Applied(n.machine), n.commit);
      r.log == n.log && r.id == n.id && r.term == n.term && r.commit == n.commit
      && r.membership == if cs == [] then n.membership else n.membership.OnCommit(cs[|cs| - 1])
    decreases n.commit - Applied(n.machine)
  {
    hide ApplyNext, LeaderOk, Indexed;
    if Applied(n.machine) < n.commit {
      ApplyNextMembership(n);
      ApplyAllMembership(ApplyNext(n).node);
    }
  }

  lemma CommitBounds(n: Node)
    requires n.role.Leader? && Ok(n)
    ensures Applied(n.machine) <= n.commit <= CommitTarget(n, |n.log|) <= |n.log|
  {
  }

  lemma NoCommit(n: Node)
    requires n.role.Leader? && Ok(n) && !Advances(n)
    ensures CommitAndApply(n) == CommitOutcome(Stay(n), false)
  {
  }

  /** A commit takes in all the pending configurations, or none. */
  lemma AllOrNone(n: Node, target: Index)
    requires n.role.Leader? && Ok(n) && (|Pending(n)| > 1 ==> Inherited(n))
    requires target == CommitTarget(n, |n.log|) && n.commit < target
    ensures var cs := Configurations(n.log, Applied(n.machine), target); cs == [] || cs == Pending(n)
  {
    ConfigurationsSplit(n.log, Applied(n.machine), target, |n.log|);
    if |Pending(n)| > 1 {
      assert n.log[target - 1].term == n.term by { assert Committable(n, target); }
      NoneBeyond(n, target);
    }
  }

  lemma {:induction false} NoneBeyond(n: Node, from: Index)
    requires Applied(n.machine) <= from <= |n.log| && Inherited(n)
    requires exists k :: 0 <= k < from && n.log[k].term == n.term
    ensures Configurations(n.log, from, |n.log|) == []
    decreases |n.log| - from
  {
    if from < |n.log| { NoneBeyond(n, from + 1); }
  }

  lemma CommitAndApplyValue(n: Node, target: Index)
    requires n.role.Leader? && Ok(n) && target == CommitTarget(n, |n.log|) && n.commit < target
    ensures var r := AfterConfigurations(ApplyAll(n.(commit := target)).node, Configurations(n.log, Applied(n.machine), target));
      CommitAndApply(n).stepDown == r.stepDown
      && CommitAndApply(n).outcome.node
        == (if TermAt(n.log, n.commit) != n.term then AnswerReads(r.outcome.node).node else r.outcome.node)
  {
    hide ApplyAll, AfterConfigurations, AnswerReads, Configurations, CommitTarget;
  }

  lemma SyncedOk(n: Node)
    requires n.role.Leader? && Ok(n)
    ensures Ok(SyncProgress(n)) && SameChain(n, SyncProgress(n)) && SyncProgress(n).commit == n.commit
  {
  }

  lemma CommitFrame(n: Node)
    requires n.role.Leader? && Ok(n) && Advances(n)
    ensures var cs, ps, r := ToApply(n), Proposals(ToApply(n)), CommitAndApply(n);
      && r.outcome.node.id == n.id && r.outcome.node.term == n.term
      && r.outcome.node.commit == Applied(r.outcome.node.machine) == CommitTarget(n, |n.log|)
      && r.outcome.node.log == Extended(n.log, n.term, ps)
      && r.outcome.node.membership ==
           (if ps != [] then MembershipState(Last(ps), true) else if cs != [] then n.membership.OnCommit(Last(cs)) else n.membership)
      && (r.stepDown <==> Excluded(n.id, n.membership.active, cs))
  {
    hide Ok, ApplyAll, AfterConfigurations, AnswerReads, CommitAndApply, Configurations, CommitTarget, Proposals, Excluded, Extended;
    var target := CommitTarget(n, |n.log|);
    var n1 := n.(commit := target);
    CommitBounds(n);
    CommitOk(n, target);
    CommitAndApplyValue(n, target);
    ApplyAllMembership(n1);
    var n2 := ApplyAll(n1).node;
    FollowedBy(n2, ToApply(n));
    AnswerReadsFrame(AfterConfigurations(n2, ToApply(n)).outcome.node);
  }

  lemma CommitOk(n: Node, target: Index)
    requires n.role.Leader? && Ok(n) && n.commit <= target <= |n.log|
    ensures Ok(n.(commit := target))
  {
  }

  lemma InOrderFits(n: Node, start: Index, settled: MembershipEntry)
    requires GoesByLast(n, start, settled)
    ensures start <= Applied(n.machine) <= n.commit <= |n.log| && n.role.Leader? && Ok(n)
  {
  }

  lemma CommitGoesOn(n: Node, start: Index, settled: MembershipEntry)
    requires GoesByLast(n, start, settled)
    ensures var r := CommitAndApply(n).outcome.node;
      && GoesByLast(r, start, settled) && n.log <= r.log && r.term == n.term && Applied(n.machine) <= Applied(r.machine)
      && Chain(r, start, settled) == Chain(n, start, settled) + if Advances(n) then Proposals(ToApply(n)) else []
  {
    hide Ok, CommitAndApply, Extended, Proposals, Configurations, CommitTarget, ToApply, Advances;
    InOrderFits(n, start, settled);
    CommitBounds(n);
    if Advances(n) {
      var r, ps := CommitAndApply(n).outcome.node, Proposals(ToApply(n));
      CommitFrame(n);
      ExtendedHolds(n.log, n.term, ps, start);
      assert Chain(r, start, settled) == Chain(n, start, settled) + ps;
      ProposalsAgree(ToApply(n), n.membership.active);
      if ps == [] { NoneInForce(n, start, settled); }
    } else {
      NoCommit(n);
    }
  }

  lemma NoneInForce(n: Node, start: Index, settled: MembershipEntry)
    requires GoesByLast(n, start, settled) && Advances(n) && Proposals(ToApply(n)) == []
    ensures CommitAndApply(n).outcome.node.membership.active == n.membership.active
  {
    CommitFrame(n);
    hide CommitAndApply, Proposals, Configurations, CommitTarget, ToApply;
  }

  /** A commit keeps the order of the configurations exactly if every change it applies
      leads to where the configuration in force does. Otherwise the Simple one of a
      superseded change is proposed again. */
  lemma CommitKeepsOrder(n: Node, start: Index, settled: MembershipEntry)
    requires InOrder(n, start, settled)
    ensures InOrder(CommitAndApply(n).outcome.node, start, settled) <==> Advances(n) ==> Agreed(ToApply(n), n.membership.active)
  {
    hide Ok, CommitAndApply, Alternate, Proposals, Configurations, Agreed, ToApply, Advances;
    InOrderFits(n, start, settled);
    CommitGoesOn(n, start, settled);
    if Advances(n) {
      ProposalsAgree(ToApply(n), n.membership.active);
      AlternateThen(Chain(n, start, settled), Proposals(ToApply(n)));
    } else {
      NoCommit(n);
    }
  }

  /** A leader leaves office on committing exactly when a change it commits excludes it,
      or when it is excluded by the Simple configuration in force and a Simple one is the
      first to commit. The successors of the Joint ones have only been appended by then:
      they are the end of the log, and not committed. */
  lemma RemovedLeaderLeaves(n: Node)
    requires n.role.Leader? && Ok(n)
    ensures var r := CommitAndApply(n);
      && (r.stepDown <==> Advances(n) && Excluded(n.id, n.membership.active, ToApply(n)))
      && (r.stepDown ==>
            && r.outcome.node.commit == CommitTarget(n, |n.log|) <= |n.log|
            && n.log <= r.outcome.node.log && |r.outcome.node.log| == |n.log| + |Proposals(ToApply(n))|
            && Configurations(r.outcome.node.log, |n.log|, |r.outcome.node.log|) == Proposals(ToApply(n)))
  {
    hide Ok, CommitAndApply, Extended, Proposals, CommitTarget, ToApply, Excluded, Advances, Configurations;
    CommitBounds(n);
    if Advances(n) {
      CommitFrame(n);
      ExtendedHolds(n.log, n.term, Proposals(ToApply(n)), |n.log|);
      ConfigurationsNone(n.log, |n.log|);
    } else {
      NoCommit(n);
    }
  }

  lemma PendingIsLast(n: Node, start: Index, settled: MembershipEntry)
    requires GoesByLast(n, start, settled)
    ensures Pending(n) != [] ==> n.membership.active == Last(Pending(n))
  {
    ConfigurationsSplit(n.log, start, Applied(n.machine), |n.log|);
  }

  lemma PendingAfter(n: Node)
    requires n.role.Leader? && Ok(n) && Advances(n)
    ensures var rest, r := Configurations(n.log, CommitTarget(n, |n.log|), |n.log|), CommitAndApply(n).outcome.node;
      Pending(n) == ToApply(n) + rest && Pending(r) == rest + Proposals(ToApply(n))
  {
    CommitFrame(n);
    hide CommitAndApply, Configurations, CommitTarget, Proposals;
    ConfigurationsSplit(n.log, Applied(n.machine), CommitTarget(n, |n.log|), |n.log|);
    ExtendedHolds(n.log, n.term, Proposals(ToApply(n)), CommitTarget(n, |n.log|));
  }

  lemma InheritedLater(n: Node, r: Node)
    requires Inherited(n) && r.log == n.log && r.term == n.term && Applied(n.machine) <= Applied(r.machine)
    ensures Inherited(r)
  {
  }

  lemma OneChangeProposes(cs: seq<MembershipEntry>)
    requires OneChange(cs) && cs != []
    ensures Proposals(cs) == if cs[0].Joint? then [Simple(cs[0].incoming)] else []
    ensures Agreed(cs, Last(cs))
  {
    ProposalsAgree(cs[1..], cs[0]);
  }

  /** Applying takes pending configurations into force for good; a Joint one is
      followed by its Simple one at once. */
  lemma ChainCommits(n: Node, start: Index, settled: MembershipEntry)
    requires ChainOk(n, start, settled)
    ensures ChainOk(CommitAndApply(n).outcome.node, start, settled)
  {
    hide Ok, CommitAndApply, Configurations, CommitTarget, GoesByLast, Alternate, Inherited;
    InOrderFits(n, start, settled);
    CommitBounds(n);
    if Advances(n) {
      var cs := ToApply(n);
      CommitFrame(n);
      PendingIsLast(n, start, settled);
      CommitKeepsOrder(n, start, settled);
      PendingAfter(n);
      AllOrNone(n, CommitTarget(n, |n.log|));
      if cs == [] {
        assert Proposals(cs) == [] && Pending(CommitAndApply(n).outcome.node) == Pending(n);
        if Inherited(n) { InheritedLater(n, CommitAndApply(n).outcome.node); }
      } else {
        OneChangeProposes(cs);
        var rest := Configurations(n.log, CommitTarget(n, |n.log|), |n.log|);
        assert |Pending(n)| == |cs| + |rest| && rest == [];
        assert Pending(CommitAndApply(n).outcome.node) == Proposals(cs);
      }
    } else {
      NoCommit(n);
    }
  }

  // ------------------------------------------------- every leader's step

  /** The change of configuration that an input makes the leader append. */
  function Requested(n: Node, input: Input): Option<MembershipEntry>
    requires n.role.Leader?
  {
    if input.Message? && input.envelope.term == n.term && KnownSender(n, input.envelope.from) then
      match input.envelope.message
      case ClientRequest(_, ChangeMembership(voters)) =>
        if ChangeError(n, voters).None? then Some(Joint(n.membership.active.config, Membership(voters))) else None
      case _ => None
    else None
  }

  /** The leader with one more entry at most: the change m, or another command. */
  ghost predicate Prepared(n: Node, m: Option<MembershipEntry>, b: Node) {
    && b.role.Leader? && Ok(b) && b.id == n.id && b.term == n.term && b.machine == n.machine
    && match m
       case Some(c) => b.log == n.log + [Entry(|n.log| + 1, n.term, None, Some(c))] && b.membership == MembershipState(c, true)
       case None => b.membership == n.membership && (b.log == n.log || exists command :: b.log == AppendEntry(n, command, None).log)
  }

  /** A leader's step in two parts: it appends one entry at most, and may then commit. */
  ghost predicate InParts(n: Node, m: Option<MembershipEntry>, r: Node) {
    exists b :: Prepared(n, m, b) && Ok(r) && (SameChain(b, r) || SameChain(CommitAndApply(b).outcome.node, r))
  }

  lemma PartsSame(n: Node, r: Node)
    requires n.role.Leader? && Ok(n) && SameChain(n, r) && Ok(r)
    ensures InParts(n, None, r)
  {
    assert Prepared(n, None, n);
  }

  lemma PartsBefore(n: Node, n1: Node, r: Node)
    requires SameChain(n, n1) && InParts(n1, None, r)
    ensures InParts(n, None, r)
  {
    hide Ok, CommitAndApply;
    var b :| Prepared(n1, None, b) && (SameChain(b, r) || SameChain(CommitAndApply(b).outcome.node, r));
    if b.log != n1.log {
      var command :| b.log == AppendEntry(n1, command, None).log;
      assert b.log == AppendEntry(n, command, None).log;
    }
    assert Prepared(n, None, b);
  }

  lemma PartsAfter(n: Node, r: Node, r': Node)
    requires InParts(n, None, r) && SameChain(r, r') && Ok(r')
    ensures InParts(n, None, r')
  {
    hide Ok, CommitAndApply, Prepared;
  }

  lemma PartsAlone(n: Node, m: Option<MembershipEntry>, r: Outcome)
    requires Prepared(n, m, r.node)
    ensures InParts(n, m, CommitIfAlone(r).outcome.node)
  {
    hide CommitAndApply, Prepared, Ok;
  }

  lemma PartsWrite(n: Node, client: Client, request: Request)
    requires n.role.Leader? && Ok(n) && (request.WriteRequest? || request.SessionRequest?)
    ensures InParts(n, None, OnWrite(n, client, request).outcome.node)
  {
    var r := Propose(n, Some(CommandOf(request)));
    var n1 := r.node.(role := r.node.role.(writes := r.node.role.writes[|r.node.log| := client]));
    WriteFrame(n, client, request);
    hide CommitIfAlone, Propose, Ok;
    assert Prepared(n, None, n1);
    PartsAlone(n, None, Outcome(n1, r.out));
  }

  lemma WriteFrame(n: Node, client: Client, request: Request)
    requires n.role.Leader? && Ok(n) && (request.WriteRequest? || request.SessionRequest?)
    ensures var r := Propose(n, Some(CommandOf(request)));
      var n1 := r.node.(role := r.node.role.(writes := r.node.role.writes[|r.node.log| := client]));
      SameChain(AppendEntry(n, Some(CommandOf(request)), None), n1) && Ok(n1)
      && OnWrite(n, client, request) == CommitIfAlone(Outcome(n1, r.out))
  {
    hide CommitAndApply;
  }

  lemma PartsChange(n: Node, client: Client, voters: set<NodeId>)
    requires n.role.Leader? && Ok(n) && ChangeError(n, voters).None?
    ensures InParts(n, Some(Joint(n.membership.active.config, Membership(voters))), OnRequest(n, client, ChangeMembership(voters)).outcome.node)
  {
    var m := Joint(n.membership.active.config, Membership(voters));
    var r := ProposeMembership(n, m);
    var n1 := r.node.(role := r.node.role.(membershipWrites := r.node.role.membershipWrites[|r.node.log| := client]));
    ProposalOk(n, m);
    ProposalFrame(n, m);
    ChangeFrame(n, client, voters);
    hide CommitIfAlone, ProposeMembership, Ok;
    assert Prepared(n, Some(m), n1);
    PartsAlone(n, Some(m), Outcome(n1, r.out));
  }

  lemma ChangeFrame(n: Node, client: Client, voters: set<NodeId>)
    requires n.role.Leader? && Ok(n) && ChangeError(n, voters).None?
    ensures var r := ProposeMembership(n, Joint(n.membership.active.config, Membership(voters)));
      var n1 := r.node.(role := r.node.role.(membershipWrites := r.node.role.membershipWrites[|r.node.log| := client]));
      Ok(n1) && OnRequest(n, client, ChangeMembership(voters)) == CommitIfAlone(Outcome(n1, r.out))
  {
    hide CommitAndApply;
  }

  lemma PartsRead(n: Node, client: Client, query: ReadCommand)
    requires n.role.Leader? && Ok(n)
    ensures InParts(n, None, OnRequest(n, client, ReadRequest(query)).outcome.node)
  {
    hide AnswerReads;
    var n1 := Queued(n, client, query);
    AnswerReadsFrame(n1);
    PartsSame(n, AnswerReads(n1).node);
  }

  lemma PartsRequest(n: Node, e: Envelope)
    requires n.role.Leader? && Ok(n) && e.message.ClientRequest? && e.term == n.term && KnownSender(n, e.from)
    ensures InParts(n, Requested(n, Message(e, 0)), LeaderAtTerm(n, e).outcome.node)
  {
    hide InParts, OnWrite, ProposeMembership, CommitIfAlone, Ok;
    var client := Client(e.from, e.message.id);
    match e.message.request
    case ReadRequest(query) => PartsRead(n, client, query);
    case StatusRequest => PartsSame(n, n);
    case ChangeMembership(voters) =>
      if ChangeError(n, voters).None? { PartsChange(n, client, voters); } else { PartsSame(n, n); }
    case _ => PartsWrite(n, client, e.message.request);
  }

  lemma PartsMatch(n: Node, peer: NodeId, index: Index)
    requires n.role.Leader? && Ok(n) && peer in n.role.progress && index <= |n.log|
    ensures InParts(n, None, OnMatch(n, peer, index).outcome.node)
  {
    if index > n.role.progress[peer].matchIndex {
      var n1 := SetProgress(n, peer, n.role.progress[peer].Advance(index));
      assert Prepared(n, None, n1);
      hide CommitAndApply;
      assert SameChain(CommitAndApply(n1).outcome.node, OnMatch(n, peer, index).outcome.node);
    } else {
      PartsSame(n, n);
    }
  }

  lemma SendFrame(n: Node, peer: NodeId, probe: bool)
    requires n.role.Leader? && Ok(n)
    ensures SameChain(n, SendAppend(n, peer, probe).node) && Ok(SendAppend(n, peer, probe).node)
  {
  }

  lemma ProbeFrame(n: Node, peer: NodeId, next: Index)
    requires n.role.Leader? && Ok(n) && peer in n.role.progress
    ensures SameChain(n, Probe(n, peer, next).node) && Ok(Probe(n, peer, next).node)
  {
    hide SendAppend;
    SendFrame(SetProgress(n, peer, n.role.progress[peer].Regress(next)), peer, true);
  }

  lemma ReadAckFrame(n: Node, peer: NodeId, serial: nat)
    requires n.role.Leader? && Ok(n) && peer in n.role.progress
    ensures SameChain(n, OnReadAck(n, peer, serial).node) && Ok(OnReadAck(n, peer, serial).node)
  {
    hide AnswerReads;
    if serial > n.role.progress[peer].readSeq {
      AnswerReadsFrame(SetProgress(n, peer, n.role.progress[peer].AdvanceRead(serial)));
    }
  }

  lemma NotedSame(n: Node, from: NodeId)
    requires n.role.Leader? && Ok(n)
    ensures var n1 := NotePeer(n, from);
      SameChain(n, n1) && Ok(n1) && n1.role.progress == n.role.progress && n1.role.readSeq == n.role.readSeq
  {
  }

  lemma PartsHeartbeatResponse(n: Node, e: Envelope)
    requires n.role.Leader? && Ok(n) && e.message.HeartbeatResponse? && OnHeartbeatResponse(n, e).outcome.node.role.Leader?
    ensures InParts(n, None, OnHeartbeatResponse(n, e).outcome.node)
  {
    hide InParts, OnMatch, OnReadAck, Probe, Ok, NotePeer;
    var m := e.message;
    if e.from in n.role.progress {
      NotedSame(n, e.from);
      var n1 := NotePeer(n, e.from);
      ReadAckFrame(n1, e.from, m.readSeq);
      var r2 := OnReadAck(n1, e.from, m.readSeq);
      ProbeFrame(r2.node, e.from, |n1.log|);
      var r3 := if m.matchIndex != 0 then Stay(r2.node) else Probe(r2.node, e.from, |n1.log|);
      PartsMatch(r3.node, e.from, m.matchIndex);
      PartsBefore(n, r3.node, OnMatch(r3.node, e.from, m.matchIndex).outcome.node);
    } else {
      PartsSame(n, n);
    }
  }

  lemma PartsAppendResponse(n: Node, e: Envelope)
    requires n.role.Leader? && Ok(n) && e.message.AppendResponse? && OnAppendResponse(n, e).outcome.node.role.Leader?
    ensures InParts(n, None, OnAppendResponse(n, e).outcome.node)
  {
    hide InParts, OnMatch, SendAppend, Probe, LeaderOk, NotePeer;
    var m := e.message;
    PartsSame(n, n);
    if e.from in n.role.progress {
      NotedSame(n, e.from);
      var n1 := NotePeer(n, e.from);
      PartsSame(n, n1);
      if m.matchIndex > 0 {
        PartsMatch(n1, e.from, m.matchIndex);
        var n2 := OnMatch(n1, e.from, m.matchIndex).outcome.node;
        SendFrame(n2, e.from, false);
        PartsAfter(n1, n2, SendAppend(n2, e.from, false).node);
        PartsBefore(n, n1, SendAppend(n2, e.from, false).node);
      } else {
        ProbeFrame(n1, e.from, m.rejectIndex);
        PartsSame(n, Probe(n1, e.from, m.rejectIndex).node);
      }
    }
  }

  lemma PartsAtTerm(n: Node, e: Envelope)
    requires n.role.Leader? && Ok(n) && e.term == n.term && KnownSender(n, e.from) && LeaderAtTerm(n, e).outcome.node.role.Leader?
    ensures InParts(n, Requested(n, Message(e, 0)), LeaderAtTerm(n, e).outcome.node)
  {
    hide InParts, OnHeartbeatResponse, OnAppendResponse, OnReadAck, OnRequest, Ok, NotePeer;
    PartsSame(n, n);
    match e.message
    case HeartbeatResponse(_, _) => PartsHeartbeatResponse(n, e);
    case AppendResponse(_, _) => PartsAppendResponse(n, e);
    case ReadResponse(serial) =>
      NotedSame(n, e.from);
      if e.from in n.role.progress {
        ReadAckFrame(NotePeer(n, e.from), e.from, serial);
        PartsSame(n, OnReadAck(NotePeer(n, e.from), e.from, serial).node);
      }
    case ClientRequest(_, _) => PartsRequest(n, e);
    case _ =>
  }

  // ------------------------------------------------- one leader's reign

  datatype Input = Message(envelope: Envelope, timeout: Ticks) | Clock(timeout: Ticks)

  function After(n: Node, input: Input): Node
    requires Ok(n)
  {
    match input
    case Message(e, timeout) => Step(n, e, timeout).node
    case Clock(timeout) => Tick(n, timeout).node
  }

  /** The states of one leader for as long as it stays in office. */
  ghost predicate Office(ns: seq<Node>, inputs: seq<Input>) {
    && |ns| == |inputs| + 1
    && (forall i :: 0 <= i < |ns| ==> ns[i].role.Leader? && Ok(ns[i]))
    && forall i :: 0 <= i < |inputs| ==> ns[i + 1] == After(ns[i], inputs[i])
  }

  /** A leader in office only acts on messages of its own term. */
  lemma StayingInOffice(n: Node, e: Envelope, timeout: Ticks)
    requires n.role.Leader? && Ok(n) && Step(n, e, timeout).node.role.Leader?
    ensures Step(n, e, timeout).node ==
      if e.term == n.term && KnownSender(n, e.from) && !IsPreVote(e.message) then LeaderAtTerm(n, e).outcome.node else n
  {
    FollowerNeverLeads(StepDown(n, e.term, timeout).node, e);
    hide LeaderAtTerm, FollowerAtTerm, AbortTable, AbortReads;
  }

  lemma FollowerNeverLeads(n: Node, e: Envelope)
    requires n.role.Follower? && Ok(n)
    ensures !FollowerAtTerm(n, e).node.role.Leader?
  {
    hide OnHeartbeat, OnAppend, Follow, Ok;
    SeenOk(n);
    var n1 := if n.role.leader == Some(e.from) then n.(role := n.role.(leaderSeen := 0)) else n;
    FollowingNeverLeads(n1, e.from);
    if e.message.Heartbeat? { HeartbeatNeverLeads(n1, e); }
    if e.message.Append? { AppendNeverLeads(n1, e); }
  }

  lemma FollowingNeverLeads(n: Node, from: NodeId)
    requires n.role.Follower?
    ensures Follow(n, from).Some? ==> !Follow(n, from).value.node.role.Leader?
  {
  }

  lemma HeartbeatNeverLeads(n: Node, e: Envelope)
    requires n.role.Follower? && Ok(n) && e.message.Heartbeat?
    ensures !OnHeartbeat(n, e).node.role.Leader?
  {
    hide Follow, Has, MaybeApply;
    FollowingNeverLeads(n, e.from);
  }

  lemma AppendNeverLeads(n: Node, e: Envelope)
    requires n.role.Follower? && Ok(n) && e.message.Append?
    ensures !OnAppend(n, e).node.role.Leader?
  {
    hide Follow, Has, Splice, AdoptMembership;
    FollowingNeverLeads(n, e.from);
  }

  lemma TickFrame(n: Node, timeout: Ticks)
    requires n.role.Leader? && Ok(n) && Tick(n, timeout).node.role.Leader?
    ensures SameChain(n, Tick(n, timeout).node) && Ok(Tick(n, timeout).node)
  {
    LeaderTickKeeps(n, timeout);
    hide AbortTable, AbortReads, Broadcast, Active;
  }

  lemma StepInParts(n: Node, input: Input)
    requires n.role.Leader? && Ok(n) && After(n, input).role.Leader?
    ensures InParts(n, Requested(n, input), After(n, input))
  {
    hide InParts, Ok, LeaderAtTerm;
    match input
    case Message(e, timeout) =>
      StayingInOffice(n, e, timeout);
      hide Step;
      PartsSame(n, n);
      if e.term == n.term && KnownSender(n, e.from) {
        if IsPreVote(e.message) {
        } else {
          PartsAtTerm(n, e);
        }
      }
    case Clock(timeout) =>
      TickFrame(n, timeout);
      PartsSame(n, Tick(n, timeout).node);
  }

  // --------------------------------------- what a step does to the order

  /** The configuration in force when a step may commit. */
  function InForce(n: Node, m: Option<MembershipEntry>): MembershipEntry {
    if m.Some? then m.value else n.membership.active
  }

  function Listed(m: Option<MembershipEntry>): seq<MembershipEntry> {
    if m.Some? then [m.value] else []
  }

  /** The configurations that a step has applied. */
  function Newly(n: Node, r: Node): seq<MembershipEntry> {
    if Applied(n.machine) <= Applied(r.machine) <= |r.log| then Configurations(r.log, Applied(n.machine), Applied(r.machine)) else []
  }

  /** A change of the configuration in force. */
  predicate Changes(n: Node, m: Option<MembershipEntry>) {
    m.Some? ==>
      && n.membership.active.Simple? && !n.membership.changePending
      && m.value.Joint? && m.value.outgoing == n.membership.active.config && m.value.incoming != n.membership.active.config
  }

  lemma RequestedChanges(n: Node, input: Input)
    requires n.role.Leader?
    ensures Changes(n, Requested(n, input))
  {
  }

  lemma PreparedLog(n: Node, m: Option<MembershipEntry>, b: Node, lo: Index)
    requires n.role.Leader? && Ok(n) && Prepared(n, m, b) && lo <= |n.log|
    ensures n.log <= b.log && Configurations(b.log, lo, |b.log|) == Configurations(n.log, lo, |n.log|) + Listed(m)
  {
    hide Ok;
    if b.log != n.log { ConfigurationsAppended(n.log, b.log[|n.log|], lo); }
    hide Configurations;
  }

  lemma PreparedInOrder(n: Node, m: Option<MembershipEntry>, b: Node, start: Index, settled: MembershipEntry)
    requires GoesByLast(n, start, settled) && Prepared(n, m, b) && Changes(n, m)
    ensures GoesByLast(b, start, settled) && b.membership.active == InForce(n, m) && n.log <= b.log
    ensures Chain(b, start, settled) == Chain(n, start, settled) + Listed(m) && Pending(b) == Pending(n) + Listed(m)
    ensures InOrder(n, start, settled) ==> InOrder(b, start, settled)
  {
    InOrderFits(n, start, settled);
    PreparedLog(n, m, b, start);
    PreparedLog(n, m, b, Applied(n.machine));
    hide Ok, Configurations, Alternate;
    assert Chain(b, start, settled) == Chain(n, start, settled) + Listed(m);
    if m.Some? && Alternate(Chain(n, start, settled)) { AlternateGrows(Chain(n, start, settled), m.value); }
  }

  lemma AppliedByCommit(n: Node, b: Node, r: Node)
    requires b.role.Leader? && Ok(b) && b.machine == n.machine && SameChain(CommitAndApply(b).outcome.node, r)
    ensures b.log <= r.log && r.term == b.term && Newly(n, r) == if Advances(b) then ToApply(b) else []
    ensures Applied(r.machine) > Applied(n.machine) <==> Advances(b)
  {
    hide Ok, CommitAndApply, Extended, Proposals, Configurations, CommitTarget;
    CommitBounds(b);
    if Advances(b) {
      CommitFrame(b);
      ExtendedHolds(b.log, b.term, Proposals(ToApply(b)), 0);
      ConfigurationsOfPrefix(b.log, r.log, Applied(b.machine), CommitTarget(b, |b.log|));
    } else {
      NoCommit(b);
      ConfigurationsNone(b.log, Applied(b.machine));
    }
  }

  /** A step keeps the order exactly if every change it applies leads to where the
      configuration in force does, and what is once out of order stays so. */
  lemma PartsKeepOrder(n: Node, m: Option<MembershipEntry>, r: Node, start: Index, settled: MembershipEntry)
    requires GoesByLast(n, start, settled) && InParts(n, m, r) && Changes(n, m)
    ensures GoesByLast(r, start, settled) && n.log <= r.log && r.term == n.term && Applied(n.machine) <= Applied(r.machine)
    ensures InOrder(r, start, settled) <==> InOrder(n, start, settled) && Agreed(Newly(n, r), InForce(n, m))
  {
    hide Ok, CommitAndApply, Configurations, Alternate, Advances, ToApply, Agreed, Changes;
    var b :| Prepared(n, m, b) && Ok(r) && (SameChain(b, r) || SameChain(CommitAndApply(b).outcome.node, r));
    InOrderFits(n, start, settled);
    PreparedInOrder(n, m, b, start, settled);
    InOrderFits(b, start, settled);
    CommitGoesOn(b, start, settled);
    NothingAgrees(InForce(n, m));
    if Alternate(Chain(b, start, settled)) { AlternateShorter(Chain(n, start, settled), Listed(m)); }
    if SameChain(b, r) {
      ConfigurationsNone(b.log, Applied(b.machine));
    } else {
      AppliedByCommit(n, b, r);
      if Alternate(Chain(r, start, settled)) {
        AlternateShorter(Chain(b, start, settled), if Advances(b) then Proposals(ToApply(b)) else []);
      }
      if InOrder(b, start, settled) { CommitKeepsOrder(b, start, settled); }
    }
  }

  lemma NothingAgrees(m: MembershipEntry)
    ensures Agreed([], m)
  {
  }

  // ------------------------------------------------- over a time in office

  /** Step k applies no change that has been superseded. */
  ghost predicate AgreedAt(ns: seq<Node>, inputs: seq<Input>, k: nat)
    requires Office(ns, inputs) && k < |inputs|
  {
    Agreed(Newly(ns[k], ns[k + 1]), InForce(ns[k], Requested(ns[k], inputs[k])))
  }

  lemma OfficeStep(ns: seq<Node>, inputs: seq<Input>, k: nat)
    requires Office(ns, inputs) && k < |inputs|
    ensures ns[k].role.Leader? && InParts(ns[k], Requested(ns[k], inputs[k]), ns[k + 1])
    ensures Changes(ns[k], Requested(ns[k], inputs[k]))
  {
    hide InParts, After, Ok, Requested, Changes;
    assert ns[k + 1] == After(ns[k], inputs[k]);
    StepInParts(ns[k], inputs[k]);
    RequestedChanges(ns[k], inputs[k]);
  }

  /** Over the whole time in office of any leader whose configurations are in order at
      the start, whatever it is asked: they are in order later exactly if no step up to
      then has applied a superseded change. */
  lemma {:induction false} OrderKept(ns: seq<Node>, inputs: seq<Input>, start: Index, settled: MembershipEntry, i: nat)
    requires Office(ns, inputs) && i < |ns| && InOrder(ns[0], start, settled)
    ensures GoesByLast(ns[i], start, settled)
    ensures InOrder(ns[i], start, settled) <==> forall k :: 0 <= k < i ==> AgreedAt(ns, inputs, k)
  {
    hide GoesByLast, Alternate, InParts, Agreed, Newly, InForce, Requested, After, Changes, Ok;
    if i > 0 {
      OrderKept(ns, inputs, start, settled, i - 1);
      OfficeStep(ns, inputs, i - 1);
      PartsKeepOrder(ns[i - 1], Requested(ns[i - 1], inputs[i - 1]), ns[i], start, settled);
      assert AgreedAt(ns, inputs, i - 1) == Agreed(Newly(ns[i - 1], ns[i]), InForce(ns[i - 1], Requested(ns[i - 1], inputs[i - 1])));
    }
  }

  // ------------------------------------------- leaders that stay in order

  /** Only the last one may be Joint. */
  predicate LastOnly(cs: seq<MembershipEntry>) {
    forall i :: 0 <= i < |cs| - 1 ==> cs[i].Simple?
  }

  lemma LastOnlySplit(a: seq<MembershipEntry>, b: seq<MembershipEntry>)
    requires LastOnly(a + b)
    ensures LastOnly(a) && LastOnly(b) && (b != [] ==> NoJoint(a))
  {
    forall i | 0 <= i < |a| - 1 ensures a[i].Simple? { assert (a + b)[i] == a[i]; }
    forall i | 0 <= i < |b| - 1 ensures b[i].Simple? { assert (a + b)[|a| + i] == b[i]; }
    if b != [] {
      forall i | 0 <= i < |a| ensures a[i].Simple? { assert (a + b)[i] == a[i]; }
    }
  }

  lemma LastOnlyProposes(cs: seq<MembershipEntry>)
    requires LastOnly(cs) && cs != []
    ensures Agreed(cs, Last(cs)) && |Proposals(cs)| <= 1
    decreases |cs|
  {
    if |cs| > 1 {
      assert LastOnly(cs[1..]) by { assert forall i :: 0 <= i < |cs| - 2 ==> cs[1..][i] == cs[i + 1]; }
      assert cs[0].Simple?;
      LastOnlyProposes(cs[1..]);
      FirstAndRest(cs);
    }
  }

  /** A leader whose last configuration alone may be an unapplied Joint stays in order,
      and stays such a leader. */
  lemma SettlingGoesOn(n: Node, m: Option<MembershipEntry>, r: Node, start: Index, settled: MembershipEntry)
    requires InOrder(n, start, settled) && LastOnly(Pending(n)) && InParts(n, m, r) && Changes(n, m)
    ensures InOrder(r, start, settled) && LastOnly(Pending(r))
  {
    hide Ok, CommitAndApply, Configurations, Alternate, Advances, ToApply, Agreed, GoesByLast, LastOnly;
    var b :| Prepared(n, m, b) && Ok(r) && (SameChain(b, r) || SameChain(CommitAndApply(b).outcome.node, r));
    InOrderFits(n, start, settled);
    PreparedInOrder(n, m, b, start, settled);
    PendingIsLast(n, start, settled);
    OneMoreJoint(Pending(n), m);
    InOrderFits(b, start, settled);
    CommitSettles(b, start, settled);
    CommitGoesOn(b, start, settled);
    if SameChain(b, r) { InOrderSame(b, r, start, settled); } else { InOrderSame(CommitAndApply(b).outcome.node, r, start, settled); }
  }

  lemma OneMoreJoint(cs: seq<MembershipEntry>, m: Option<MembershipEntry>)
    requires LastOnly(cs) && (m.Some? && cs != [] ==> Last(cs).Simple?)
    ensures LastOnly(cs + Listed(m))
  {
  }

  lemma InOrderSame(n: Node, r: Node, start: Index, settled: MembershipEntry)
    requires InOrder(n, start, settled) && SameChain(n, r) && Ok(r)
    ensures InOrder(r, start, settled) && Pending(r) == Pending(n)
  {
    hide Configurations, Alternate, LeaderOk;
  }

  lemma CommitSettles(n: Node, start: Index, settled: MembershipEntry)
    requires InOrder(n, start, settled) && LastOnly(Pending(n))
    ensures var r := CommitAndApply(n).outcome.node;
      InOrder(r, start, settled) && Applied(r.machine) <= |r.log| && LastOnly(Pending(r))
  {
    hide Ok, CommitAndApply, Configurations, CommitTarget, Alternate, ToApply, GoesByLast, LastOnly, Agreed, Proposals;
    InOrderFits(n, start, settled);
    CommitBounds(n);
    CommitKeepsOrder(n, start, settled);
    CommitGoesOn(n, start, settled);
    if Advances(n) {
      var cs, rest := ToApply(n), Configurations(n.log, CommitTarget(n, |n.log|), |n.log|);
      PendingAfter(n);
      PendingIsLast(n, start, settled);
      LastOnlySplit(cs, rest);
      ProposalsAgree(cs, n.membership.active);
      LittlePending(n, cs, rest);
      InOrderFits(CommitAndApply(n).outcome.node, start, settled);
    } else {
      NoCommit(n);
    }
  }

  /** What is pending after a commit, and that what it applied agrees. */
  lemma LittlePending(n: Node, cs: seq<MembershipEntry>, rest: seq<MembershipEntry>)
    requires LastOnly(cs) && LastOnly(rest) && (rest != [] ==> NoJoint(cs))
    requires cs + rest != [] ==> n.membership.active == Last(cs + rest)
    ensures Agreed(cs, n.membership.active) && LastOnly(rest + Proposals(cs))
  {
    hide Proposals;
    ProposalsAgree(cs, n.membership.active);
    if rest == [] {
      assert cs + rest == cs;
      if cs == [] { ProposalsAgree(cs, n.membership.active); } else { LastOnlyProposes(cs); }
    } else {
      assert rest + Proposals(cs) == rest;
    }
  }

  lemma {:induction false} SettlingStays(ns: seq<Node>, inputs: seq<Input>, start: Index, settled: MembershipEntry, i: nat)
    requires Office(ns, inputs) && i < |ns| && InOrder(ns[0], start, settled) && LastOnly(Pending(ns[0]))
    ensures InOrder(ns[i], start, settled) && LastOnly(Pending(ns[i]))
  {
    hide InOrder, LastOnly, InParts, Requested, After, Changes;
    if i > 0 {
      SettlingStays(ns, inputs, start, settled, i - 1);
      OfficeStep(ns, inputs, i - 1);
      SettlingGoesOn(ns[i - 1], Requested(ns[i - 1], inputs[i - 1]), ns[i], start, settled);
    }
  }

  // ------------------------------------------------- leaders just elected

  lemma {:induction false} LeadsToLast(cs: seq<MembershipEntry>) returns (c: MembershipEntry)
    requires Alternate(cs) && !NoJoint(cs)
    ensures c in cs && c.Joint? && c.incoming == Last(cs).Target()
    decreases |cs|
  {
    if Last(cs).Joint? {
      c := Last(cs);
    } else {
      var rest := cs[..|cs| - 1];
      assert cs == rest + [Last(cs)];
      assert forall d :: d in cs <==> d in rest || d == Last(cs);
      AlternateShorter(rest, [Last(cs)]);
      c := LeadsToLast(rest);
      LastSucceeds(rest, Last(cs));
    }
  }

  lemma PendingAlternates(n: Node, start: Index, settled: MembershipEntry)
    requires InOrder(n, start, settled)
    ensures Alternate(Pending(n))
  {
    hide Succeeds;
    ConfigurationsSplit(n.log, start, Applied(n.machine), |n.log|);
    var before := [settled] + Configurations(n.log, start, Applied(n.machine));
    assert Chain(n, start, settled) == before + Pending(n);
    forall i | 0 <= i < |Pending(n)| - 1 ensures Succeeds(Pending(n)[i], Pending(n)[i + 1]) {
      assert Succeeds((before + Pending(n))[|before| + i], (before + Pending(n))[|before| + i + 1]);
    }
  }

  /** Nothing was committed since state n0. */
  predicate Before(n0: Node, n: Node) {
    Ok(n0) && n.role.Leader? && Ok(n) && n.term == n0.term && n0.log <= n.log && n.machine == n0.machine
  }

  /** Nor was a change requested, */
  predicate Untouched(n0: Node, n: Node) {
    Before(n0, n) && n.membership == n0.membership && Pending(n) == Pending(n0)
  }

  /** or one was, to somewhere else. */
  predicate Diverted(n0: Node, n: Node) {
    Before(n0, n) && n.membership.active.Joint? && n.membership.active.incoming != n0.membership.active.Target()
  }

  lemma StillBefore(n0: Node, n: Node, m: Option<MembershipEntry>, r: Node)
    requires n0.role.Leader? && Before(n0, n) && InParts(n, m, r) && Changes(n, m) && Applied(r.machine) == Applied(n.machine)
    ensures Untouched(n0, n) ==> if m.None? then Untouched(n0, r) else Diverted(n0, r)
    ensures Diverted(n0, n) ==> m.None? && Diverted(n0, r)
  {
    hide Ok, CommitAndApply, Configurations, Advances, ToApply;
    var b :| Prepared(n, m, b) && Ok(r) && (SameChain(b, r) || SameChain(CommitAndApply(b).outcome.node, r));
    OkBounds(n);
    PreparedLog(n, m, b, Applied(n.machine));
    if !SameChain(b, r) {
      AppliedByCommit(n, b, r);
      NoCommit(b);
    }
  }

  lemma OkBounds(n: Node)
    requires Ok(n)
    ensures Applied(n.machine) <= n.commit <= |n.log|
  {
  }

  /** The first commit applies all that was inherited. */
  lemma FirstCommit(n0: Node, b: Node)
    requires n0.role.Leader? && Inherited(n0) && Before(n0, b) && Advances(b)
    ensures Pending(n0) <= ToApply(b)
  {
    var a, target := Applied(n0.machine), CommitTarget(b, |b.log|);
    OkBounds(n0);
    CommitBounds(b);
    assert b.log[target - 1].term == n0.term by { assert Committable(b, target); }
    hide Ok, Configurations, CommitTarget, Inherited;
    if target >= |n0.log| {
      ConfigurationsSplit(b.log, a, |n0.log|, target);
      ConfigurationsOfPrefix(n0.log, b.log, a, |n0.log|);
    } else {
      assert n0.log[target - 1] == b.log[target - 1];
      NoneBeyond(n0, target);
      ConfigurationsSplit(n0.log, a, target, |n0.log|);
      ConfigurationsOfPrefix(n0.log, b.log, a, target);
    }
  }

  lemma FirstApplied(n0: Node, n: Node, m: Option<MembershipEntry>, r: Node)
    requires n0.role.Leader? && Inherited(n0) && Before(n0, n)
    requires InParts(n, m, r) && Changes(n, m) && Ok(r) && Applied(r.machine) > Applied(n.machine)
    ensures Pending(n0) <= Newly(n, r)
    ensures Untouched(n0, n) && m.None? ==> Newly(n, r) == Pending(n0) && NoJoint(Pending(r))
  {
    hide Ok, CommitAndApply, Configurations, ToApply, Inherited, CommitTarget;
    var b :| Prepared(n, m, b) && Ok(r) && (SameChain(b, r) || SameChain(CommitAndApply(b).outcome.node, r));
    OkBounds(n0);
    OkBounds(n);
    OkBounds(r);
    CommitBounds(b);
    PreparedLog(n, m, b, Applied(n.machine));
    AppliedByCommit(n, b, r);
    FirstCommit(n0, b);
    PendingAfter(b);
    if Untouched(n0, n) && m.None? {
      assert Pending(b) == Pending(n0);
      ProposalsAgree(ToApply(b), n.membership.active);
      assert |Pending(b)| == |ToApply(b)| + |Configurations(b.log, CommitTarget(b, |b.log|), |b.log|)|;
    }
  }

  ghost predicate Idle(ns: seq<Node>, inputs: seq<Input>, k: nat)
    requires Office(ns, inputs) && k < |inputs|
  {
    Applied(ns[k].machine) > Applied(ns[0].machine) || Requested(ns[k], inputs[k]).None?
  }

  /** The leader took no request for a change up to its first commit. */
  ghost predicate Unasked(ns: seq<Node>, inputs: seq<Input>, i: nat)
    requires Office(ns, inputs) && i < |ns|
  {
    forall k :: 0 <= k < i ==> Idle(ns, inputs, k)
  }

  lemma UnaskedAtFirst(ns: seq<Node>, inputs: seq<Input>)
    requires Office(ns, inputs)
    ensures Unasked(ns, inputs, 0)
  {
  }

  lemma IdleMeans(ns: seq<Node>, inputs: seq<Input>, k: nat)
    requires Office(ns, inputs) && k < |inputs|
    ensures ns[k].role.Leader?
    ensures Idle(ns, inputs, k) <==> Applied(ns[k].machine) > Applied(ns[0].machine) || Requested(ns[k], inputs[k]).None?
  {
  }

  lemma UnaskedLonger(ns: seq<Node>, inputs: seq<Input>, i: nat)
    requires Office(ns, inputs) && i < |inputs|
    ensures Unasked(ns, inputs, i + 1) <==> Unasked(ns, inputs, i) && Idle(ns, inputs, i)
  {
    hide Idle;
  }

  lemma OrderTurning(n0: Node, n: Node, m: Option<MembershipEntry>, r: Node, start: Index, settled: MembershipEntry)
    requires InOrder(n0, start, settled) && Inherited(n0) && !NoJoint(Pending(n0))
    requires InOrder(n, start, settled) && (Untouched(n0, n) || Diverted(n0, n)) && InParts(n, m, r) && Changes(n, m) && Ok(r)
    ensures Applied(r.machine) == Applied(n.machine) ==>
      InOrder(r, start, settled) && if Untouched(n0, n) && m.None? then Untouched(n0, r) else Diverted(n0, r)
    ensures Applied(r.machine) > Applied(n.machine) ==>
      && (InOrder(r, start, settled) <==> Agreed(Pending(n0), n0.membership.active) && Untouched(n0, n) && m.None?)
      && (InOrder(r, start, settled) ==> LastOnly(Pending(r)))
  {
    hide InParts, Changes, GoesByLast, Alternate, Agreed, Untouched, Diverted, LastOnly, Inherited, Ok, NoJoint, Pending, Newly, InForce;
    Starts(n0, n);
    InOrderFits(n0, start, settled);
    OkBounds(r);
    PartsKeepOrder(n, m, r, start, settled);
    if Applied(r.machine) == Applied(n.machine) {
      StillBefore(n0, n, m, r);
      NewlyNothing(n, r);
      NothingAgrees(InForce(n, m));
    } else {
      FirstApplied(n0, n, m, r);
      WhereTo(n0, n, m);
      if Untouched(n0, n) && m.None? {
        JointsAreLast(Pending(r));
      } else {
        PendingAlternates(n0, start, settled);
        PendingIsLast(n0, start, settled);
        var c := LeadsToLast(Pending(n0));
        Superseded(Pending(n0), Newly(n, r), c, InForce(n, m));
      }
    }
  }

  lemma Starts(n0: Node, n: Node)
    requires Untouched(n0, n) || Diverted(n0, n)
    ensures Before(n0, n) && Applied(n0.machine) <= |n0.log|
  {
    hide LeaderOk, Configurations;
  }

  lemma NewlyNothing(n: Node, r: Node)
    requires Applied(r.machine) == Applied(n.machine)
    ensures Newly(n, r) == []
  {
  }

  lemma NotBoth(n0: Node, n: Node)
    ensures !(Untouched(n0, n) && Diverted(n0, n))
  {
    hide Before, Pending;
  }

  lemma JointsAreLast(cs: seq<MembershipEntry>)
    requires NoJoint(cs)
    ensures LastOnly(cs)
  {
  }

  lemma WhereTo(n0: Node, n: Node, m: Option<MembershipEntry>)
    requires (Untouched(n0, n) || Diverted(n0, n)) && Changes(n, m)
    ensures InForce(n, m).Target() == n0.membership.active.Target() <==> Untouched(n0, n) && m.None?
    ensures Untouched(n0, n) && m.None? ==> InForce(n, m) == n0.membership.active
  {
    hide Before, Pending;
  }

  lemma Superseded(cs: seq<MembershipEntry>, ds: seq<MembershipEntry>, c: MembershipEntry, m: MembershipEntry)
    requires cs <= ds && c in cs && c.Joint? && c.incoming != m.Target()
    ensures !Agreed(ds, m)
  {
    assert c in ds;
  }


  lemma OrderStarts(n: Node)
    requires n.role.Leader? && Ok(n)
    ensures Untouched(n, n)
  {
  }

  /** What becomes of a leader that inherited a change which it has not applied. */
  lemma {:induction false} OrderTurns(ns: seq<Node>, inputs: seq<Input>, start: Index, settled: MembershipEntry, i: nat)
    requires Office(ns, inputs) && i < |ns| && InOrder(ns[0], start, settled) && Inherited(ns[0]) && !NoJoint(Pending(ns[0]))
    ensures Applied(ns[i].machine) >= Applied(ns[0].machine)
    ensures Applied(ns[i].machine) == Applied(ns[0].machine) ==>
      InOrder(ns[i], start, settled) && if Unasked(ns, inputs, i) then Untouched(ns[0], ns[i]) else Diverted(ns[0], ns[i])
    ensures Applied(ns[i].machine) > Applied(ns[0].machine) ==>
      && GoesByLast(ns[i], start, settled)
      && (InOrder(ns[i], start, settled) <==> Agreed(Pending(ns[0]), ns[0].membership.active) && Unasked(ns, inputs, i))
      && (InOrder(ns[i], start, settled) ==> LastOnly(Pending(ns[i])))
  {
    hide InParts, Requested, After, Changes, GoesByLast, Alternate, Agreed, Newly, Untouched, Diverted, Unasked, LastOnly, Inherited, Ok, NoJoint, Pending, Idle;
    InOrderFits(ns[0], start, settled);
    UnaskedAtFirst(ns, inputs);
    if i == 0 {
      OrderStarts(ns[0]);
    } else {
      OrderTurns(ns, inputs, start, settled, i - 1);
      var n, m, r := ns[i - 1], Requested(ns[i - 1], inputs[i - 1]), ns[i];
      OfficeStep(ns, inputs, i - 1);
      UnaskedLonger(ns, inputs, i - 1);
      if Applied(n.machine) > Applied(ns[0].machine) {
        PartsKeepOrder(n, m, r, start, settled);
        if InOrder(n, start, settled) { SettlingGoesOn(n, m, r, start, settled); }
      } else {
        NotBoth(ns[0], n);
        OrderTurning(ns[0], n, m, r, start, settled);
        PartsKeepOrder(n, m, r, start, settled);
      }
      IdleMeans(ns, inputs, i - 1);
    }
  }

  /** Over the whole time in office of any leader that inherited the configurations it has
      not applied, as every leader has when it is elected: until it commits, they are in
      order. From then on they are exactly if every change among those inherited led to
      where the last one leads, and there was none or the leader was asked for no further
      one before it committed. */
  lemma OrderDecided(ns: seq<Node>, inputs: seq<Input>, start: Index, settled: MembershipEntry, i: nat)
    requires Office(ns, inputs) && i < |ns| && InOrder(ns[0], start, settled) && Inherited(ns[0])
    ensures InOrder(ns[i], start, settled) <==>
      || Applied(ns[i].machine) == Applied(ns[0].machine)
      || NoJoint(Pending(ns[0]))
      || (Agreed(Pending(ns[0]), ns[0].membership.active) && Unasked(ns, inputs, i))
  {
    hide InParts, Requested, After, Changes, GoesByLast, Alternate, Agreed, Newly, Untouched, Diverted, Unasked, Inherited, Ok;
    InOrderFits(ns[0], start, settled);
    if NoJoint(Pending(ns[0])) {
      SettlingStays(ns, inputs, start, settled, i);
    } else {
      OrderTurns(ns, inputs, start, settled, i);
    }
  }

  lemma NoOpInOrder(n: Node, start: Index, settled: MembershipEntry)
    requires Ok(n) && n.role.Candidate? && n.term > 0 && (forall k :: 0 <= k < |n.log| ==> n.log[k].term < n.term)
    requires start <= Applied(n.machine) && Alternate(Chain(n, start, settled)) && n.membership.active == Last(Chain(n, start, settled))
    ensures CanAppend(NewLeader(n))
    ensures var r := Propose(NewLeader(n), None).node;
      && InOrder(r, start, settled) && Inherited(r)
      && Pending(r) == Pending(n) && r.membership == n.membership && r.machine == n.machine
  {
    hide Propose, Configurations, Alternate, Ok, CanAppend, NewLeader;
    var e := Entry(|n.log| + 1, n.term, None, None);
    NoOpFrame(n);
    ConfigurationsAppended(n.log, e, start);
    ConfigurationsAppended(n.log, e, Applied(n.machine));
    var r := Propose(NewLeader(n), None).node;
    assert Chain(r, start, settled) == Chain(n, start, settled) && Pending(r) == Pending(n);
  }

  /** A candidate whose configurations are in order, and who wins, is a leader of whom
      the above speaks, whatever it has not applied. A lone voter commits at once, which
      is the first commit of its term already. */
  lemma ElectedStart(n: Node, start: Index, settled: MembershipEntry)
    requires Ok(n) && n.role.Candidate? && n.term > 0 && n.vote == Some(n.id) && n.role.phase == Election
    requires forall k :: 0 <= k < |n.log| ==> n.log[k].term < n.term
    requires start <= Applied(n.machine) && Alternate(Chain(n, start, settled)) && n.membership.active == Last(Chain(n, start, settled))
    ensures var r := WinElection(n).node;
      && GoesByLast(r, start, settled) && Applied(r.machine) >= Applied(n.machine)
      && (Applied(r.machine) == Applied(n.machine) ==>
            InOrder(r, start, settled) && Inherited(r) && Pending(r) == Pending(n) && r.membership == n.membership)
      && (Applied(r.machine) > Applied(n.machine) ==>
            && (InOrder(r, start, settled) <==> Agreed(Pending(n), n.membership.active))
            && (InOrder(r, start, settled) ==> LastOnly(Pending(r))))
  {
    hide Ok, Alternate, Configurations, CommitAndApply, Propose, CanAppend, NewLeader, GoesByLast, LastOnly, Inherited, Agreed;
    NoOpInOrder(n, start, settled);
    var b := Propose(NewLeader(n), None).node;
    var r := WinElection(n).node;
    InOrderFits(b, start, settled);
    AnnouncedSame(CommitAndApply(b).outcome.node);
    assert SameChain(CommitAndApply(b).outcome.node, r) && Ok(r);
    assert Prepared(b, None, b);
    PartsKeepOrder(b, None, r, start, settled);
    OkBounds(r);
    OrderStarts(b);
    if Applied(r.machine) == Applied(b.machine) {
      StillBefore(b, b, None, r);
      NewlyNothing(b, r);
      NothingAgrees(b.membership.active);
      AppliedByCommit(b, b, r);
      NoCommit(b);
      InheritedLater(b, r);
    } else {
      FirstApplied(b, b, None, r);
      JointsAreLast(Pending(r));
    }
  }

  lemma AnnouncedSame(n: Node)
    requires n.role.Leader? && Ok(n)
    ensures SameChain(n, Announce(n).node) && Ok(Announce(n).node)
  {
  }

  lemma NoOpFrame(n: Node)
    requires Ok(n) && n.role.Candidate? && n.term > 0
    ensures CanAppend(NewLeader(n)) && Applied(n.machine) <= |n.log|
    ensures var r := Propose(NewLeader(n), None).node;
      r.role.Leader? && Ok(r) && r.log == n.log + [Entry(|n.log| + 1, n.term, None, None)]
      && r.membership == n.membership && r.machine == n.machine && r.term == n.term && r.id == n.id && r.commit == n.commit
  {
    hide NextAppend;
  }

  // ----------------------------------------- at most one change at a time

  lemma ChainPrepared(n: Node, m: Option<MembershipEntry>, b: Node, start: Index, settled: MembershipEntry)
    requires ChainOk(n, start, settled) && Prepared(n, m, b) && Changes(n, m)
    ensures ChainOk(b, start, settled)
  {
    hide Ok, Configurations, Alternate, Succeeds;
    PreparedInOrder(n, m, b, start, settled);
  }

  lemma ChainGoesOn(n: Node, m: Option<MembershipEntry>, r: Node, start: Index, settled: MembershipEntry)
    requires ChainOk(n, start, settled) && InParts(n, m, r) && Changes(n, m)
    ensures ChainOk(r, start, settled)
  {
    hide ChainOk, Changes, CommitAndApply, Ok;
    var b :| Prepared(n, m, b) && Ok(r) && (SameChain(b, r) || SameChain(CommitAndApply(b).outcome.node, r));
    ChainPrepared(n, m, b, start, settled);
    ChainCommits(b, start, settled);
    ChainSame(if SameChain(b, r) then b else CommitAndApply(b).outcome.node, r, start, settled);
  }

  /** Over the whole time in office of a leader that starts with at most one change not
      applied, whatever it is asked: its configurations are in order, at most one change
      is unapplied, and `changePending` says whether one is. */
  lemma {:induction false} ChangesOneAtATime(ns: seq<Node>, inputs: seq<Input>, start: Index, settled: MembershipEntry, i: nat)
    requires Office(ns, inputs) && i < |ns| && ChainOk(ns[0], start, settled)
    ensures ChainOk(ns[i], start, settled)
  {
    hide ChainOk, InParts, Requested, After, Changes;
    if i > 0 {
      ChangesOneAtATime(ns, inputs, start, settled, i - 1);
      OfficeStep(ns, inputs, i - 1);
      ChainGoesOn(ns[i - 1], Requested(ns[i - 1], inputs[i - 1]), ns[i], start, settled);
    }
  }

  /** Neighbouring configurations of the chain cannot decide independently. */
  lemma NeighboursOverlap(n: Node, start: Index, settled: MembershipEntry, i: nat, a: set<NodeId>, b: set<NodeId>)
    returns (x: NodeId)
    requires InOrder(n, start, settled) && i + 1 < |Chain(n, start, settled)|
    requires Chain(n, start, settled)[i].HasQuorum(a) && Chain(n, start, settled)[i + 1].HasQuorum(b)
    ensures x in a && x in b && x in Chain(n, start, settled)[i].AllVoters() && x in Chain(n, start, settled)[i + 1].AllVoters()
  {
    var c := Chain(n, start, settled);
    assert Succeeds(c[i], c[i + 1]) && Adjacent(c[i], c[i + 1]);
    x := AdjacentQuorumsIntersect(c[i], c[i + 1], a, b);
  }
}
