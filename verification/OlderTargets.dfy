/** Two leaders whose configurations fall out of order (src/raft/node.rs:2102-2130,
    2302-2327). Node 2 followed a leader of term 1 through two changes of configuration,
    without hearing of all that was committed, and leads in term 2. */
module OlderTargets {
  import opened Basics
  import opened Configuration
  import opened Machine
  import opened LogSpec
  import opened Messages
  import opened RaftNode
  import opened Reconfiguration

  const First := Membership({1, 2, 3})
  const Second := Membership({1, 2, 3, 4})
  const Third := Membership({2, 4, 5})

  function Configuring(index: Index, term: Term, m: MembershipEntry): Entry {
    Entry(index, term, None, Some(m))
  }

  /** From First to Second and back, and the no-op of term 2. */
  function BackAndForth(): seq<Entry> {
    [Entry(1, 1, None, None), Configuring(2, 1, Joint(First, Second)), Configuring(3, 1, Simple(Second)),
     Configuring(4, 1, Joint(Second, First)), Configuring(5, 1, Simple(First)), Entry(6, 2, None, None)]
  }

  /** The new leader has the acknowledgement of node 1, and nothing committed. */
  function Behind(): Node {
    Node(2, MembershipState(Simple(First), true), 2, Some(2), BackAndForth(), 0, EmptyState, Options(4, 20, 100, true, true),
         Leader(map[1 := Progress(6, 7, 0), 3 := Progress(0, 7, 0)], map[], map[], [], 0, 0, map[1 := 0, 3 := 0]))
  }

  lemma BackAndForthLists()
    ensures Configurations(BackAndForth(), 0, 6) == [Joint(First, Second), Simple(Second), Joint(Second, First), Simple(First)]
    ensures Configurations(BackAndForth(), 3, 6) == [Joint(Second, First), Simple(First)]
    ensures Indexed(BackAndForth())
  {
    var log := BackAndForth();
    assert Configurations(log, 5, 6) == [];
    assert Configurations(log, 4, 6) == [Simple(First)];
    assert Configurations(log, 3, 6) == [Joint(Second, First)] + [Simple(First)];
    assert Configurations(log, 2, 6) == [Simple(Second)] + [Joint(Second, First), Simple(First)];
    assert Configurations(log, 1, 6) == [Joint(First, Second)] + [Simple(Second), Joint(Second, First), Simple(First)];
  }

  lemma BackAndForthTerms()
    ensures |BackAndForth()| == 6 && BackAndForth()[5].term == 2 && forall i :: 0 <= i < 5 ==> BackAndForth()[i].term == 1
  {
  }

  lemma BehindInOrder()
    ensures InOrder(Behind(), 0, Simple(First))
    ensures Pending(Behind()) == [Joint(First, Second), Simple(Second), Joint(Second, First), Simple(First)]
  {
    hide Configurations, BackAndForth, Alternate;
    BackAndForthLists();
    BackAndForthTerms();
    FourAlternate(First, Second, First);
    assert Peers(Behind()) == {1, 3};
  }

  lemma FourAlternate(x: Membership, y: Membership, z: Membership)
    ensures Alternate([Simple(x)] + [Joint(x, y), Simple(y), Joint(y, z), Simple(z)])
  {
  }

  lemma BehindCommits()
    ensures var n := Behind();
      && n.role.Leader? && CommitTarget(n, 6) == 6
      && |n.log| == 6 && n.commit == 0 && n.term == 2 && n.membership.active == Simple(First)
  {
    hide BackAndForth;
    BackAndForthTerms();
    var n := Behind();
    assert 1 in Holders(n, 6) && 2 in Holders(n, 6);
    assert First.voters * Holders(n, 6) >= {1, 2};
    CardinalityOfSubset({1, 2}, First.voters * Holders(n, 6));
    assert First.voters == {1, 2} + {3} && First.QuorumSize() == 2;
    assert TermAt(n.log, 6) == 2;
    assert Committable(n, 6);
  }

  lemma TwoChangesCommit(n: Node, x: Membership, y: Membership, z: Membership, start: Index, settled: MembershipEntry)
    requires InOrder(n, start, settled) && Advances(n) && n.membership.active.Target() == z && y != z
    requires Joint(x, y) in ToApply(n) && Proposals(ToApply(n)) == [Simple(y), Simple(z)]
    ensures var r := CommitAndApply(n).outcome.node;
      && !InOrder(r, start, settled)
      && r.log == n.log + [Configuring(|n.log| + 1, n.term, Simple(y)), Configuring(|n.log| + 2, n.term, Simple(z))]
  {
    hide Ok, CommitAndApply, Configurations, CommitTarget, GoesByLast, Alternate, Advances, Extended, Proposals;
    InOrderFits(n, start, settled);
    CommitFrame(n);
    CommitKeepsOrder(n, start, settled);
    ExtendedByTwo(n.log, n.term, Simple(y), Simple(z));
  }

  lemma TwoProposals(x: Membership, y: Membership, z: Membership)
    ensures Proposals([Joint(x, y), Simple(y), Joint(y, z), Simple(z)]) == [Simple(y), Simple(z)]
    ensures Proposals([Joint(x, y), Simple(y), Joint(y, z)]) == [Simple(y), Simple(z)]
  {
    assert Proposals([Joint(y, z)]) == [Simple(z)];
    assert [Simple(y), Joint(y, z)][1..] == [Joint(y, z)];
    assert Proposals([Simple(y), Joint(y, z)]) == [Simple(z)];
    assert [Joint(x, y), Simple(y), Joint(y, z)][1..] == [Simple(y), Joint(y, z)];
    assert Proposals([Simple(z)]) == [];
    assert [Joint(y, z), Simple(z)][1..] == [Simple(z)];
    assert Proposals([Joint(y, z), Simple(z)]) == [Simple(z)];
    assert [Simple(y), Joint(y, z), Simple(z)][1..] == [Joint(y, z), Simple(z)];
    assert Proposals([Simple(y), Joint(y, z), Simple(z)]) == [Simple(z)];
    assert [Joint(x, y), Simple(y), Joint(y, z), Simple(z)][1..] == [Simple(y), Joint(y, z), Simple(z)];
  }

  lemma ExtendedByTwo(log: seq<Entry>, term: Term, a: MembershipEntry, b: MembershipEntry)
    ensures Extended(log, term, [a, b]) == log + [Configuring(|log| + 1, term, a), Configuring(|log| + 2, term, b)]
  {
    var log1 := log + [Configuring(|log| + 1, term, a)];
    var log2 := log1 + [Configuring(|log| + 2, term, b)];
    assert [a, b][1..] == [b] && [b][1..] == [];
    assert Extended(log2, term, []) == log2;
    assert Extended(log1, term, [b]) == log2;
    assert log2 == log + [Configuring(|log| + 1, term, a), Configuring(|log| + 2, term, b)];
  }

  lemma BehindApplies()
    ensures var n := Behind(); n.role.Leader? && Ok(n) && Advances(n) && ToApply(n) == Pending(n)
  {
    hide Ok, CommitTarget, GoesByLast, Alternate, BackAndForth, Configurations;
    BehindInOrder();
    InOrderFits(Behind(), 0, Simple(First));
    BehindCommits();
  }

  /** Committing it all, the leader proposes Second once more, and First after it. */
  lemma OlderTargetReturns()
    ensures var n := Behind();
      && InOrder(n, 0, Simple(First)) && Advances(n) && ToApply(n) == Pending(n)
      && !InOrder(CommitAndApply(n).outcome.node, 0, Simple(First))
      && CommitAndApply(n).outcome.node.log == n.log + [Configuring(7, 2, Simple(Second)), Configuring(8, 2, Simple(First))]
  {
    hide Ok, CommitAndApply, CommitTarget, GoesByLast, Alternate, BackAndForth, Behind, Configurations;
    var n := Behind();
    BehindInOrder();
    BehindCommits();
    InOrderFits(n, 0, Simple(First));
    assert 4 in Second.voters;
    BehindApplies();
    TwoProposals(First, Second, First);
    TwoChangesCommit(n, First, Second, First, 0, Simple(First));
  }

  // ------------------------------------------- a change accepted too early

  /** The new leader has applied the first change, and so takes none for pending. */
  function Ahead(): Node {
    Node(2, MembershipState(Simple(First), false), 2, Some(2), BackAndForth(), 3, State(Kv(3, map[]), map[]), Options(4, 20, 100, true, true),
         Leader(map[1 := Progress(0, 7, 0), 3 := Progress(0, 7, 0)], map[], map[], [], 0, 0, map[1 := 0, 3 := 0]))
  }

  /** It takes a request for Third, and nodes 1 and 4 acknowledge it all. */
  function Asked(): Node {
    Ahead().(membership := MembershipState(Joint(First, Third), true),
             log := BackAndForth() + [Configuring(7, 2, Joint(First, Third))],
             role := Leader(map[1 := Progress(7, 8, 0), 3 := Progress(0, 8, 0), 4 := Progress(7, 8, 0), 5 := Progress(0, 8, 0)],
                            map[], map[7 := Client(2, 9)], [], 0, 0, map[1 := 0, 3 := 0, 4 := 0, 5 := 0]))
  }

  function ForThird(): Input {
    Message(Envelope(2, 2, 2, ClientRequest(9, ChangeMembership(Third.voters))), 0)
  }

  lemma AheadInOrder()
    ensures InOrder(Ahead(), 0, Simple(First)) && Inherited(Ahead())
  {
    hide Configurations, BackAndForth, Alternate;
    BackAndForthLists();
    BackAndForthTerms();
    BackAndForthPlain();
    FourAlternate(First, Second, First);
    assert Peers(Ahead()) == {1, 3};
  }

  lemma BackAndForthPlain()
    ensures BackAndForth()[5].membership.None?
  {
  }

  lemma AheadAsks()
    ensures Requested(Ahead(), ForThird()) == Some(Joint(First, Third))
  {
    hide BackAndForth;
    assert 5 in Third.voters && 5 !in First.voters;
  }

  lemma AskedPrepared()
    ensures Prepared(Ahead(), Some(Joint(First, Third)), Asked())
  {
    hide BackAndForth;
    BackAndForthLists();
    BackAndForthTerms();
    assert Peers(Asked()) == {1, 3, 4, 5};
  }

  lemma AskedCommits()
    ensures Asked().role.Leader? && CommitTarget(Asked(), 7) == 7
  {
    hide BackAndForth;
    BackAndForthTerms();
    var n := Asked();
    var h := Holders(n, 7);
    assert 1 in h && 2 in h && 4 in h;
    CardinalityOfSubset({1, 2}, First.voters * h);
    CardinalityOfSubset({2, 4}, Third.voters * h);
    ThreeEach();
    assert TermAt(n.log, 7) == 2;
    assert Committable(n, 7);
  }

  lemma ThreeEach()
    ensures First.QuorumSize() == 2 && Third.QuorumSize() == 2
    ensures First.HasQuorum({1, 3}) && Third.HasQuorum({4, 5})
  {
    assert First.voters == {1, 2} + {3} && Third.voters == {2, 4} + {5};
    assert First.voters * {1, 3} == {1, 3} && Third.voters * {4, 5} == {4, 5};
  }

  /** Committing it all, the leader proposes First once more and Third right behind it,
      two configurations whose quorums need not meet. */
  lemma EarlyChange()
    ensures InOrder(Ahead(), 0, Simple(First)) && Inherited(Ahead())
    ensures Requested(Ahead(), ForThird()) == Some(Joint(First, Third)) && Prepared(Ahead(), Requested(Ahead(), ForThird()), Asked())
    ensures var r := CommitAndApply(Asked()).outcome.node;
      && !InOrder(r, 0, Simple(First))
      && r.log == Asked().log + [Configuring(8, 2, Simple(First)), Configuring(9, 2, Simple(Third))]
      && Simple(First).HasQuorum({1, 3}) && Simple(Third).HasQuorum({4, 5})
  {
    var n, c := Asked(), Joint(First, Third);
    hide Ok, BackAndForth, Configurations, Alternate, CommitAndApply, CommitTarget;
    AheadInOrder();
    AheadAsks();
    AskedPrepared();
    AskedCommits();
    BackAndForthTerms();
    ThreeEach();
    InOrderFits(Ahead(), 0, Simple(First));
    PreparedLog(Ahead(), Some(c), n, 3);
    BackAndForthLists();
    assert |n.log| == 7 && n.commit == 3 && n.term == 2 && n.membership.active == c && Ahead().log == BackAndForth();
    assert First != Third by { assert 5 in Third.voters; }
    hide Ahead, Prepared, Asked;
    PreparedInOrder(Ahead(), Some(c), n, 0, Simple(First));
    InOrderFits(n, 0, Simple(First));
    TwoProposals(Second, First, Third);
    assert ToApply(n) == [Joint(Second, First), Simple(First)] + [c];
    TwoChangesCommit(n, Second, First, Third, 0, Simple(First));
  }
}
