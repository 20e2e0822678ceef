/** Voter configurations and their quorums (src/raft/membership.rs). */
module Configuration {
  import opened Basics

  datatype Membership = Membership(voters: set<NodeId>) {

    function QuorumSize(): nat {
      |voters| / 2 + 1
    }

    /** A strict majority of this configuration lies in `matched`. */
    predicate HasQuorum(matched: set<NodeId>) {
      |voters * matched| >= QuorumSize()
    }
  }

  datatype MembershipEntry =
    | Joint(outgoing: Membership, incoming: Membership)
    | Simple(config: Membership)
  {
    function AllVoters(): set<NodeId> {
      match this
      case Simple(m) => m.voters
      case Joint(o, n) => o.voters + n.voters
    }

    function Target(): Membership {
      match this
      case Simple(m) => m
      case Joint(_, n) => n
    }

    predicate HasQuorum(matched: set<NodeId>) {
      match this
      case Simple(m) => m.HasQuorum(matched)
      case Joint(o, n) => o.HasQuorum(matched) && n.HasQuorum(matched)
    }
  }

  datatype MembershipState = MembershipState(active: MembershipEntry, changePending: bool) {

    /** A configuration takes effect as soon as its entry is appended. */
    function ApplyEntry(entry: MembershipEntry): MembershipState {
      MembershipState(entry, true)
    }

    /** Committing a Simple entry ends the change; committing a Joint one does not. */
    function OnCommit(entry: MembershipEntry): MembershipState {
      this.(changePending := entry.Joint?)
    }
  }

  function Bootstrap(id: NodeId, peers: set<NodeId>): MembershipState {
    MembershipState(Simple(Membership({id} + peers)), false)
  }

  // ---------------------------------------------------------------- quorums

  lemma CardinalityOfSubset<T>(a: set<T>, b: set<T>)
    requires a <= b
    ensures |a| <= |b|
  {
    if a != {} {
      var x :| x in a;
      CardinalityOfSubset(a - {x}, b - {x});
    }
  }

  lemma CardinalityOfUnion<T>(a: set<T>, b: set<T>)
    ensures |a + b| + |a * b| == |a| + |b|
  {
    assert a + b == a + (b - a);
    assert |a + (b - a)| == |a| + |b - a|;
    assert b == (b - a) + (a * b);
    assert |b| == |b - a| + |a * b|;
  }

  /** A set is a quorum exactly if it holds more than half of the voters. */
  lemma QuorumIsMajority(m: Membership, s: set<NodeId>)
    ensures m.HasQuorum(s) <==> 2 * |m.voters * s| > |m.voters|
  {
  }

  /** Counted out: more than half of the voters, and during a change more than half of the
      old ones and of the new ones. */
  predicate Majority(c: MembershipEntry, s: set<NodeId>) {
    match c
    case Simple(m) => 2 * |m.voters * s| > |m.voters|
    case Joint(o, n) => 2 * |o.voters * s| > |o.voters| && 2 * |n.voters * s| > |n.voters|
  }

  lemma JointNeedsBoth(c: MembershipEntry, s: set<NodeId>)
    ensures c.HasQuorum(s) <==> Majority(c, s)
  {
    QuorumIsMajority(c.Target(), s);
    if c.Joint? { QuorumIsMajority(c.outgoing, s); }
  }

  /** A node on its own decides only where it is the only voter. */
  lemma AloneDecides(c: MembershipEntry, id: NodeId)
    ensures c.HasQuorum({id}) <==> c.AllVoters() == {id} && (c.Joint? ==> c.outgoing == c.incoming)
  {
    OneVoter(c.Target(), id);
    if c.Joint? { OneVoter(c.outgoing, id); }
  }

  lemma OneVoter(m: Membership, id: NodeId)
    ensures m.HasQuorum({id}) <==> m.voters == {id}
  {
    assert m.voters * {id} == if id in m.voters then {id} else {};
    if id in m.voters { assert |m.voters - {id}| == |m.voters| - 1; }
    if id in m.voters && m.voters != {id} {
      var x :| x in m.voters && x != id;
      assert x in m.voters - {id};
    }
  }

  /** Of an odd number of voters, however they are split, one part is a quorum. */
  lemma OddSplits(m: Membership, s: set<NodeId>)
    requires |m.voters| % 2 == 1
    ensures m.HasQuorum(s) <==> !m.HasQuorum(m.voters - s)
  {
    QuorumIsMajority(m, s);
    QuorumIsMajority(m, m.voters - s);
    assert m.voters * s + m.voters * (m.voters - s) == m.voters;
    CardinalityOfUnion(m.voters * s, m.voters * (m.voters - s));
    assert m.voters * s * (m.voters * (m.voters - s)) == {};
  }

  /** Two majorities of one configuration share one of its voters. */
  lemma MajoritiesIntersect(m: Membership, a: set<NodeId>, b: set<NodeId>) returns (x: NodeId)
    requires m.HasQuorum(a) && m.HasQuorum(b)
    ensures x in m.voters && x in a && x in b
  {
    var a', b' := m.voters * a, m.voters * b;
    CardinalityOfUnion(a', b');
    CardinalityOfSubset(a' + b', m.voters);
    assert a' * b' != {};
    x :| x in a' * b';
  }

  /** Quorums are upward closed. */
  lemma QuorumMonotone(c: MembershipEntry, a: set<NodeId>, b: set<NodeId>)
    requires c.HasQuorum(a) && a <= b
    ensures c.HasQuorum(b)
  {
    match c
    case Simple(m) => CardinalityOfSubset(m.voters * a, m.voters * b);
    case Joint(o, n) =>
      CardinalityOfSubset(o.voters * a, o.voters * b);
      CardinalityOfSubset(n.voters * a, n.voters * b);
  }

  /** The configurations that may be in force next to each other during a change. */
  predicate Adjacent(a: MembershipEntry, b: MembershipEntry) {
    || a == b
    || (a.Simple? && b.Joint? && (a.config == b.outgoing || a.config == b.incoming))
    || (a.Joint? && b.Simple? && (b.config == a.outgoing || b.config == a.incoming))
  }

  /** Every quorum of a joint configuration meets every quorum of the old one, of
      the new one and of itself, so adjacent configurations can never decide
      independently. */
  lemma AdjacentQuorumsIntersect(c: MembershipEntry, d: MembershipEntry, a: set<NodeId>, b: set<NodeId>)
    returns (x: NodeId)
    requires Adjacent(c, d)
    requires c.HasQuorum(a) && d.HasQuorum(b)
    ensures x in c.AllVoters() && x in d.AllVoters() && x in a && x in b
  {
    match (c, d)
    case (Simple(m), Simple(_)) => x := MajoritiesIntersect(m, a, b);
    case (Simple(m), Joint(_, _)) => x := MajoritiesIntersect(m, a, b);
    case (Joint(_, _), Simple(m)) => x := MajoritiesIntersect(m, a, b);
    case (Joint(o, _), Joint(_, _)) => x := MajoritiesIntersect(o, a, b);
  }
}
