/** A Raft node as the program has it: fields that every message and tick updates in
    place, and a channel it sends on (src/raft/node.rs). Each method does to the
    fields and to the channel what RaftNode.dfy says, which is what all theorems
    about the cluster are about. */
module Process {
  import opened Basics
  import opened Configuration
  import opened Machine
  import opened LogSpec
  import opened Messages
  import opened RaftNode
  import opened NodeInvariant

  /** One and the same message to several nodes. */
  function Sent(n: Node, to: set<NodeId>, message: Message): multiset<Envelope> {
    multiset(set p | p in to :: Send(n, p, message))
  }

  lemma SentNone(n: Node, message: Message)
    ensures Sent(n, {}, message) == multiset{}
  {
  }

  lemma SentOneMore(n: Node, done: set<NodeId>, p: NodeId, message: Message)
    requires p !in done
    ensures Sent(n, done + {p}, message) == Sent(n, done, message) + multiset{Send(n, p, message)}
  {
    var a, b := set q | q in done :: Send(n, q, message), set q | q in done + {p} :: Send(n, q, message);
    assert b == a + {Send(n, p, message)};
    assert Send(n, p, message) !in a;
  }

  lemma SentToAll(n: Node, message: Message)
    ensures Sent(n, Peers(n), message) == Broadcast(n, message)
  {
  }

  /** The steps of asking for pre-votes. */
  lemma PreVoteSteps(n: Node, timeout: Ticks)
    ensures var n1, message := n.(role := Candidate({n.id}, 0, timeout, PreVote)), PreCampaign(|n.log|, LastTerm(n.log));
      var ask := Sent(n1.(term := n1.term + 1), Peers(n1), message);
      StartPreVote(n, timeout) ==
        if ClusterSize(n1) == 1 then StartElection(n1, timeout)
        else if n1.membership.active.HasQuorum({n.id}) then StartElection(n1, timeout).Also(ask)
        else Outcome(n1, ask)
  {
    hide StartElection;
    var n1, message := n.(role := Candidate({n.id}, 0, timeout, PreVote)), PreCampaign(|n.log|, LastTerm(n.log));
    assert (set p | p in Peers(n1) :: Send(n1.(term := n1.term + 1), p, message)) == set p | p in Peers(n1) :: Envelope(n1.id, n1.term + 1, p, message);
  }

  lemma AbortSetStep(n: Node, done: set<RequestId>, r: RequestId)
    requires r !in done
    ensures multiset(set q | q in done + {r} :: Send(n, n.id, ClientResponse(q, Failed(Abort))))
      == multiset(set q | q in done :: Send(n, n.id, ClientResponse(q, Failed(Abort)))) + multiset{Send(n, n.id, ClientResponse(r, Failed(Abort)))}
  {
    var a, b := set q | q in done :: Send(n, n.id, ClientResponse(q, Failed(Abort))), set q | q in done + {r} :: Send(n, n.id, ClientResponse(q, Failed(Abort)));
    assert b == a + {Send(n, n.id, ClientResponse(r, Failed(Abort)))};
    assert Send(n, n.id, ClientResponse(r, Failed(Abort))) !in a;
  }

  /** Applying does not depend on the role. */
  lemma {:induction false} AppliedAlike(n: Node, role: Role)
    requires Indexed(n.log) && n.commit <= |n.log|
    ensures MaybeApply(n.(role := role)) == MaybeApply(n).(role := role)
    decreases n.commit - Applied(n.machine)
  {
    if Applied(n.machine) < n.commit {
      var entry := n.log[Applied(n.machine)];
      ApplyAdvances(n.machine, entry);
      AppliedAlike(n.(
        machine := Apply(n.machine, entry).0,
        membership := if entry.membership.Some? then n.membership.OnCommit(entry.membership.value) else n.membership), role);
    }
  }

  /** Nor does standing for election. */
  lemma StartAnew(n: Node, role: Role, timeout: Ticks)
    ensures StartPreVote(n.(role := role), timeout) == StartPreVote(n, timeout)
    ensures StartElection(n.(role := role), timeout) == StartElection(n, timeout)
  {
    ElectAnew(n, role, timeout);
    var n1 := n.(role := Candidate({n.id}, 0, timeout, PreVote));
    assert n.(role := role).(role := Candidate({n.id}, 0, timeout, PreVote)) == n1;
    PreVoteSteps(n, timeout);
    PreVoteSteps(n.(role := role), timeout);
    hide StartPreVote, StartElection, Sent;
  }

  lemma ElectAnew(n: Node, role: Role, timeout: Ticks)
    ensures StartElection(n.(role := role), timeout) == StartElection(n, timeout)
  {
    hide Broadcast;
    var n1 := n.(term := n.term + 1, vote := Some(n.id), role := Candidate({n.id}, 0, timeout, Election));
    assert n.(role := role).(term := n.term + 1, vote := Some(n.id), role := Candidate({n.id}, 0, timeout, Election)) == n1;
  }

  /** What a follower makes of an Append from its leader. */
  lemma HeartbeatCases(n: Node, e: Envelope)
    requires Ok(n) && n.role.Follower? && e.message.Heartbeat?
    ensures Indexed(n.log)
    ensures var m, r, f := e.message, OnHeartbeat(n, e), Follow(n, e.from);
      var matches := Has(n.log, m.lastIndex, e.term);
      && (m.commitIndex > m.lastIndex ==> r == Stay(Halt(n)))
      && (m.commitIndex <= m.lastIndex ==>
            (f.None? ==> r == Stay(n))
            && (f.Some? && f.value.node.role.Halted? ==> r == f.value)
            && (f.Some? && !f.value.node.role.Halted? ==>
                  var n1 := f.value.node;
                  n1 == n.(role := n1.role) && (matches ==> m.commitIndex <= |n.log|)
                  && r == Outcome(if matches && m.commitIndex > n.commit then MaybeApply(n1.(commit := m.commitIndex)) else n1,
                                  f.value.out + multiset{Send(n1, e.from, HeartbeatResponse(if matches then m.lastIndex else 0, m.readSeq))})))
  {
    hide Follow, MaybeApply, LeaderOk;
    FollowFrame(n, e.from);
  }

  function TakeAppend(n: Node, e: Envelope): Outcome
    requires e.message.Append?
  {
    var m := e.message;
    if m.baseIndex == 0 || Has(n.log, m.baseIndex, m.baseTerm) then
      match Splice(n.log, 1, n.commit, n.term, m.entries)
      case None => Stay(Halt(n))
      case Some(log) =>
        Reply1(n.(log := log, membership := AdoptMembership(n.membership, m.entries)), e.from, AppendResponse(m.baseIndex + |m.entries|, 0))
    else Reply1(n, e.from, AppendResponse(0, Min(m.baseIndex, |n.log| + 1)))
  }

  lemma AppendCases(n: Node, e: Envelope)
    requires Ok(n) && n.role.Follower? && e.message.Append?
    ensures var m, r, f := e.message, OnAppend(n, e), Follow(n, e.from);
      && (m.entries != [] && m.baseIndex != m.entries[0].index - 1 ==> r == Stay(Halt(n)))
      && (m.entries == [] || m.baseIndex == m.entries[0].index - 1 ==>
            (f.None? ==> r == Stay(n))
            && (f.Some? && f.value.node.role.Halted? ==> r == f.value)
            && (f.Some? && !f.value.node.role.Halted? ==>
                  var t := TakeAppend(f.value.node, e); r == Outcome(t.node, f.value.out + t.out)))
  {
    hide Splice, AdoptMembership;
    FollowFrame(n, e.from);
    var f := Follow(n, e.from);
    if f.Some? { assert f.value.out + multiset{} == f.value.out; }
  }

  // ---------------------------------------------- offering one by one

  function OfferedProgress(n: Node, done: set<NodeId>): map<NodeId, Progress>
    requires n.role.Leader? && LeaderOk(n)
  {
    map p | p in n.role.progress ::
      if p in done && n.role.progress[p].nextIndex == |n.log| then NextAppend(n, p, n.role.progress[p], false).0 else n.role.progress[p]
  }

  function OfferedSet(n: Node, done: set<NodeId>): set<Envelope>
    requires n.role.Leader? && LeaderOk(n)
  {
    set p | p in n.role.progress && p in done && n.role.progress[p].nextIndex == |n.log| && NextAppend(n, p, n.role.progress[p], false).1.Some? ::
      NextAppend(n, p, n.role.progress[p], false).1.value
  }

  function OfferedOut(n: Node, done: set<NodeId>): multiset<Envelope>
    requires n.role.Leader? && LeaderOk(n)
  {
    multiset(OfferedSet(n, done))
  }

  lemma ProgressIsPeers(n: Node)
    requires n.role.Leader? && Ok(n)
    ensures n.role.progress.Keys == Peers(n) && LeaderOk(n)
  {
  }

  lemma ProgressAt(n: Node, peer: NodeId)
    requires n.role.Leader? && LeaderOk(n) && peer in n.role.progress
    ensures ProgressOk(n.role.progress[peer], |n.log|)
  {
  }

  lemma OfferedNone(n: Node)
    requires n.role.Leader? && LeaderOk(n)
    ensures OfferedProgress(n, {}) == n.role.progress && OfferedOut(n, {}) == multiset{}
  {
  }

  lemma OfferedAll(n: Node)
    requires n.role.Leader? && Ok(n)
    ensures Offer(n) == Outcome(n.(role := n.role.(progress := OfferedProgress(n, Peers(n)))), OfferedOut(n, Peers(n)))
  {
    var waiting := set p | p in n.role.progress && n.role.progress[p].nextIndex == |n.log|;
    assert OfferedProgress(n, Peers(n)) == map p | p in n.role.progress ::
      if p in waiting then NextAppend(n, p, n.role.progress[p], false).0 else n.role.progress[p];
    assert OfferedSet(n, Peers(n)) == set p | p in waiting && NextAppend(n, p, n.role.progress[p], false).1.Some? ::
      NextAppend(n, p, n.role.progress[p], false).1.value;
  }

  lemma OfferedPast(n: Node, done: set<NodeId>, p: NodeId)
    requires n.role.Leader? && LeaderOk(n) && p in n.role.progress && p !in done && n.role.progress[p].nextIndex == |n.log|
    requires forall q :: q in n.role.progress ==> ProgressOk(n.role.progress[q], |n.log|)
    ensures var next := NextAppend(n, p, n.role.progress[p], false);
      OfferedProgress(n, done + {p}) == OfferedProgress(n, done)[p := next.0]
      && OfferedSet(n, done + {p}) == OfferedSet(n, done) + if next.1.Some? then {next.1.value} else {}
  {
    hide LeaderOk, NextAppend;
  }

  lemma OfferedSkips(n: Node, done: set<NodeId>, p: NodeId)
    requires n.role.Leader? && LeaderOk(n) && p in n.role.progress && n.role.progress[p].nextIndex != |n.log|
    requires forall q :: q in n.role.progress ==> ProgressOk(n.role.progress[q], |n.log|)
    ensures OfferedProgress(n, done + {p}) == OfferedProgress(n, done) && OfferedSet(n, done + {p}) == OfferedSet(n, done)
  {
    hide LeaderOk, NextAppend;
  }

  lemma SentTo(n: Node, p: NodeId)
    requires n.role.Leader? && LeaderOk(n) && p in n.role.progress && ProgressOk(n.role.progress[p], |n.log|)
    ensures var next := NextAppend(n, p, n.role.progress[p], false); next.1.Some? ==> next.1.value.to == p
  {
    hide LeaderOk;
  }

  /** Offering to one more peer is one more send, or none. */
  lemma OfferedOneMore(n: Node, done: set<NodeId>, p: NodeId)
    requires n.role.Leader? && LeaderOk(n) && p in n.role.progress && p !in done
    ensures var m := n.(role := n.role.(progress := OfferedProgress(n, done)));
      LeaderOk(m) && p in m.role.progress && m.role.progress[p] == n.role.progress[p]
      && (n.role.progress[p].nextIndex == |n.log| ==>
            SendAppend(m, p, false).node == n.(role := n.role.(progress := OfferedProgress(n, done + {p})))
            && OfferedOut(n, done + {p}) == OfferedOut(n, done) + SendAppend(m, p, false).out)
      && (n.role.progress[p].nextIndex != |n.log| ==>
            OfferedProgress(n, done + {p}) == OfferedProgress(n, done) && OfferedOut(n, done + {p}) == OfferedOut(n, done))
  {
    OfferedLeads(n, done, p);
    hide LeaderOk, NextAppend, OfferedProgress, OfferedSet;
    if n.role.progress[p].nextIndex == |n.log| {
      OfferedPast(n, done, p);
      OfferedElsewhere(n, done, p);
      SentTo(n, p);
    } else {
      OfferedSkips(n, done, p);
    }
  }

  lemma OfferedLeads(n: Node, done: set<NodeId>, p: NodeId)
    requires n.role.Leader? && LeaderOk(n) && p in n.role.progress && p !in done
    ensures var m := n.(role := n.role.(progress := OfferedProgress(n, done)));
      LeaderOk(m) && p in m.role.progress && m.role.progress[p] == n.role.progress[p]
      && (forall q :: q in n.role.progress ==> ProgressOk(n.role.progress[q], |n.log|))
      && NextAppend(m, p, n.role.progress[p], false) == NextAppend(n, p, n.role.progress[p], false)
  {
    OfferedFits(n, done);
    LeadsWith(n, OfferedProgress(n, done));
    SameNext(n, n.(role := n.role.(progress := OfferedProgress(n, done))), p, n.role.progress[p]);
    hide ReadsOrdered, Peers, NextAppend;
  }

  lemma OfferedFits(n: Node, done: set<NodeId>)
    requires n.role.Leader? && LeaderOk(n)
    ensures OfferedProgress(n, done).Keys == n.role.progress.Keys
    ensures forall q :: q in n.role.progress ==> ProgressOk(n.role.progress[q], |n.log|)
    ensures forall q :: q in n.role.progress ==> ProgressOk(OfferedProgress(n, done)[q], |n.log|)
  {
    hide ReadsOrdered, Peers;
  }

  lemma LeadsWith(n: Node, progress: map<NodeId, Progress>)
    requires n.role.Leader? && LeaderOk(n) && progress.Keys == n.role.progress.Keys
    requires forall q :: q in progress ==> ProgressOk(progress[q], |n.log|)
    ensures LeaderOk(n.(role := n.role.(progress := progress)))
  {
    hide ReadsOrdered;
    assert Peers(n.(role := n.role.(progress := progress))) == Peers(n);
  }

  lemma SameNext(n: Node, m: Node, peer: NodeId, p: Progress)
    requires ProgressOk(p, |n.log|) && m == n.(role := m.role)
    ensures NextAppend(m, peer, p, false) == NextAppend(n, peer, p, false)
  {
  }

  lemma OfferedElsewhere(n: Node, done: set<NodeId>, p: NodeId)
    requires n.role.Leader? && LeaderOk(n) && p !in done
    ensures forall e :: e in OfferedSet(n, done) ==> e.to != p
  {
  }

  // -------------------------------------------------- confirming reads

  /** The nodes, the leader included, whose read sequence number is at least c. */
  function Reached(n: Node, c: nat): set<NodeId>
    requires n.role.Leader?
  {
    (if n.role.readSeq >= c then {n.id} else {}) + set p | p in n.role.progress && n.role.progress[p].readSeq >= c
  }

  /** Every number that is reached is reached by the nodes with the next candidate. */
  lemma NextCandidate(n: Node, all: set<nat>, serial: nat) returns (c: nat)
    requires n.role.Leader? && all == {n.role.readSeq} + set p | p in n.role.progress :: n.role.progress[p].readSeq
    requires serial <= n.role.readSeq
    ensures c in all && c >= serial && Reached(n, c) == Confirmers(n, serial)
  {
    var above := set x | x in all && x >= serial;
    assert n.role.readSeq in above;
    c := LeastOf(above);
    forall p | p in n.role.progress && n.role.progress[p].readSeq >= serial ensures n.role.progress[p].readSeq >= c {
      assert n.role.progress[p].readSeq in above;
    }
    assert Reached(n, c) == Confirmers(n, serial);
  }

  lemma {:induction false} LeastOf(s: set<nat>) returns (l: nat)
    requires s != {}
    ensures l in s && forall x :: x in s ==> l <= x
    decreases |s|
  {
    l :| l in s;
    if s != {l} {
      var m := LeastOf(s - {l});
      assert forall x :: x in s ==> x == l || x in s - {l};
      if m < l { l := m; }
    }
  }

  lemma GreatestConfirmed(n: Node, all: set<nat>, candidates: set<nat>, q: nat)
    requires n.role.Leader? && all == {n.role.readSeq} + set p | p in n.role.progress :: n.role.progress[p].readSeq
    requires candidates <= all && q in candidates && forall x :: x in candidates ==> x <= q
    requires n.membership.active.HasQuorum(Reached(n, q))
    requires forall c :: c in all - candidates ==> !n.membership.active.HasQuorum(Reached(n, c))
    ensures forall serial: nat :: 1 <= serial <= n.role.readSeq ==> (serial <= q <==> Confirmed(n, serial))
  {
    forall serial: nat | 1 <= serial <= n.role.readSeq ensures serial <= q <==> Confirmed(n, serial) {
      if serial <= q {
        QuorumMonotone(n.membership.active, Reached(n, q), Confirmers(n, serial));
      } else {
        var c := NextCandidate(n, all, serial);
        assert c in all - candidates;
      }
    }
  }

  lemma NoneConfirmed(n: Node, all: set<nat>)
    requires n.role.Leader? && all == {n.role.readSeq} + set p | p in n.role.progress :: n.role.progress[p].readSeq
    requires forall c :: c in all ==> !n.membership.active.HasQuorum(Reached(n, c))
    ensures forall serial: nat :: 1 <= serial <= n.role.readSeq ==> !Confirmed(n, serial)
  {
    forall serial: nat | 1 <= serial <= n.role.readSeq ensures !Confirmed(n, serial) {
      var c := NextCandidate(n, all, serial);
    }
  }

  lemma ReadsInOrder(n: Node)
    requires n.role.Leader? && Ok(n)
    ensures ReadsOrdered(n.role.pendingReads, n.role.readSeq)
  {
  }

  /** The queue does not matter for what is confirmed. */
  lemma ConfirmedAlike(m: Node, n: Node, serial: nat)
    requires m.role.Leader? && n.role.Leader? && m == n.(role := n.role.(pendingReads := m.role.pendingReads))
    ensures Confirmed(m, serial) == Confirmed(n, serial) && CanRead(m) == CanRead(n)
  {
    assert Confirmers(m, serial) == Confirmers(n, serial);
  }

  lemma PopOne(m: Node, n: Node, q: nat)
    requires m.role.Leader? && n.role.Leader? && Ok(m) && m == n.(role := n.role.(pendingReads := m.role.pendingReads))
    requires m.role.pendingReads != [] && m.role.pendingReads[0].serial <= q && CanRead(n)
    requires forall serial: nat :: 1 <= serial <= n.role.readSeq ==> (serial <= q <==> Confirmed(n, serial))
    ensures var m1 := m.(role := m.role.(pendingReads := m.role.pendingReads[1..]));
      Ok(m1) && ReadsOrdered(m1.role.pendingReads, m1.role.readSeq)
      && AnswerReads(m) == AnswerReads(m1).Also(multiset{AnswerRead(m, m.role.pendingReads[0])})
  {
    ConfirmedAlike(m, n, m.role.pendingReads[0].serial);
    hide Confirmed, CanRead;
  }

  lemma StopReading(m: Node, n: Node, q: nat)
    requires m.role.Leader? && n.role.Leader? && Ok(m) && m == n.(role := n.role.(pendingReads := m.role.pendingReads))
    requires m.role.pendingReads == [] || m.role.pendingReads[0].serial > q
    requires forall serial: nat :: 1 <= serial <= n.role.readSeq ==> (serial <= q <==> Confirmed(n, serial))
    ensures AnswerReads(m) == Stay(m)
  {
    if m.role.pendingReads != [] { ConfirmedAlike(m, n, m.role.pendingReads[0].serial); }
    hide Confirmed, CanRead;
  }

  // --------------------------------------------------------- committing

  lemma ApplyRange(n: Node)
    requires n.role.Leader? && Ok(n)
    ensures Applied(n.machine) <= n.commit <= |n.log| && Configurations(n.log, Applied(n.machine), Applied(n.machine)) == []
  {
  }

  lemma ConfigurationsStep(log: seq<Entry>, lo: Index, i: Index)
    requires lo <= i < |log|
    ensures Configurations(log, lo, i + 1) ==
      Configurations(log, lo, i) + (if log[i].membership.Some? then [log[i].membership.value] else [])
    decreases i - lo
  {
    if lo < i { ConfigurationsStep(log, lo + 1, i); } else { assert Configurations(log, i + 1, i + 1) == []; }
  }

  lemma ApplyStep(n: Node)
    requires n.role.Leader? && Ok(n)
    ensures Applied(n.machine) >= n.commit ==> ApplyAll(n) == Stay(n)
    ensures Applied(n.machine) < n.commit ==> ApplyAll(n) == ApplyAll(ApplyNext(n).node).Also(ApplyNext(n).out)
  {
    hide ApplyNext;
  }

  lemma FollowedUp(n: Node)
    requires n.role.Leader? && Ok(n)
    ensures AfterConfigurations(n, []) == CommitOutcome(Stay(n), false)
  {
  }

  lemma FollowUpStep(n: Node, ms: seq<MembershipEntry>)
    requires n.role.Leader? && Ok(n) && ms != []
    ensures var r := if ms[0].Joint? then ProposeMembership(n, Simple(ms[0].incoming)) else Stay(n);
      var n1 := SyncProgress(r.node);
      Ok(n1)
      && AfterConfigurations(n, ms).outcome == AfterConfigurations(n1, ms[1..]).outcome.Also(r.out)
      && AfterConfigurations(n, ms).stepDown ==
        ((n1.membership.active.Simple? && n1.id !in n1.membership.active.AllVoters()) || AfterConfigurations(n1, ms[1..]).stepDown)
  {
    hide ProposeMembership, Ok, CanAppend, SyncProgress;
    CanAlwaysAppend(n);
    SyncKeepsOk(if ms[0].Joint? then ProposeMembership(n, Simple(ms[0].incoming)).node else n);
  }

  /** The steps of committing, one after the other. */
  lemma CommitSteps(n: Node)
    requires n.role.Leader? && Ok(n)
    ensures n.commit <= |n.log|
    ensures var target := CommitTarget(n, |n.log|);
      if target <= n.commit then CommitAndApply(n) == CommitOutcome(Stay(n), false)
      else
        var r1 := ApplyAll(n.(commit := target));
        var r2 := AfterConfigurations(r1.node, Configurations(n.log, Applied(n.machine), target));
        var r3 := if TermAt(n.log, n.commit) != n.term then AnswerReads(r2.outcome.node) else Stay(r2.outcome.node);
        Ok(n.(commit := target)) && target <= |n.log|
        && CommitAndApply(n) == CommitOutcome(Outcome(r3.node, r1.out + r2.outcome.out + r3.out), r2.stepDown)
  {
    hide ApplyAll, AfterConfigurations, AnswerReads, Configurations, TermAt, LeaderOk;
    var target := CommitTarget(n, |n.log|);
    if target > n.commit { CommitOk(n, target); }
  }

  lemma CommitOk(n: Node, target: Index)
    requires n.role.Leader? && Ok(n) && n.commit <= target <= |n.log|
    ensures Ok(n.(commit := target))
  {
  }

  lemma FourParts(a: multiset<Envelope>, b: multiset<Envelope>, c: multiset<Envelope>, d: multiset<Envelope>)
    ensures a + b + c + d == a + (b + c + d)
  {
  }

  // -------------------------------------------------- leaving office

  lemma AnnounceAlike(n: Node)
    requires n.role.Leader?
    ensures var m := Heartbeat(|n.log|, n.commit, n.role.readSeq); Broadcast(n.(role := n.role.(sinceHeartbeat := 0)), m) == Broadcast(n, m)
  {
    var m, n1 := Heartbeat(|n.log|, n.commit, n.role.readSeq), n.(role := n.role.(sinceHeartbeat := 0));
    var a, b := set p | p in Peers(n) :: Send(n, p, m), set p | p in Peers(n1) :: Send(n1, p, m);
    forall p | p in Peers(n) ensures Send(n, p, m) == Send(n1, p, m) && p in Peers(n1) {}
    assert a == b;
  }

  lemma TablesInRange(n: Node)
    requires n.role.Leader? && Ok(n)
    ensures forall i :: i in n.role.writes ==> i < |n.log| + 1
    ensures forall i :: i in n.role.membershipWrites ==> i < |n.log| + 1
  {
  }

  lemma StepDownSteps(n: Node, term: Term, timeout: Ticks)
    requires n.role.Leader?
    ensures var n1 := if term > n.term then n.(term := term, vote := None) else n;
      StepDown(n, term, timeout) == Outcome(
        n1.(role := Follower(None, 0, timeout, {})),
        AbortTable(n1, n.role.writes, 0, |n.log| + 1) + AbortTable(n1, n.role.membershipWrites, 0, |n.log| + 1)
        + AbortReads(n1, n.role.pendingReads))
  {
    hide AbortTable, AbortReads;
  }

  lemma {:induction false} AbortOneOf(n: Node, table: map<Index, Client>, i: Index, lo: Index, hi: Index)
    requires lo <= hi && i in table
    ensures AbortTable(n, table, lo, hi) == AbortTable(n, table - {i}, lo, hi)
      + (if lo <= i < hi then multiset{Respond(n, table[i], Failed(Abort))} else multiset{})
    decreases hi - lo
  {
    hide Respond;
    if lo < hi {
      AbortOneOf(n, table, i, lo + 1, hi);
      if lo == i {
        assert i in table && i !in table - {i};
      } else {
        assert lo in table <==> lo in table - {i};
      }
    }
  }

  lemma {:induction false} AbortNothing(n: Node, lo: Index, hi: Index)
    requires lo <= hi
    ensures AbortTable(n, map[], lo, hi) == multiset{}
    decreases hi - lo
  {
    if lo < hi { AbortNothing(n, lo + 1, hi); }
  }

  // ---------------------------------------------- a leader's responses

  lemma HeartbeatResponseSteps(n: Node, e: Envelope)
    requires n.role.Leader? && Ok(n) && e.message.HeartbeatResponse?
    ensures e.from !in n.role.progress ==> OnHeartbeatResponse(n, e) == CommitOutcome(Stay(n), false)
    ensures e.from in n.role.progress ==>
      var m, n1 := e.message, NotePeer(n, e.from);
      n1.role.Leader? && Ok(n1) && e.from in n1.role.progress && n1.log == n.log
      && if m.matchIndex > |n1.log| || m.readSeq > n1.role.readSeq then OnHeartbeatResponse(n, e) == CommitOutcome(Stay(Halt(n1)), false)
         else
           var r2 := OnReadAck(n1, e.from, m.readSeq);
           var r3 := if m.matchIndex != 0 then Stay(r2.node) else Probe(r2.node, e.from, |n1.log|);
           r2.node.role.Leader? && Ok(r2.node) && e.from in r2.node.role.progress && r2.node.log == n.log
           && r3.node.role.Leader? && Ok(r3.node) && e.from in r3.node.role.progress && r3.node.log == n.log
           && OnHeartbeatResponse(n, e) == CommitOutcome(OnMatch(r3.node, e.from, m.matchIndex).outcome.Also(r2.out + r3.out),
                                                         OnMatch(r3.node, e.from, m.matchIndex).stepDown)
  {
    hide OnMatch, OnReadAck, Probe;
  }

  lemma AppendResponseSteps(n: Node, e: Envelope)
    requires n.role.Leader? && Ok(n) && e.message.AppendResponse?
    ensures var m, r := e.message, OnAppendResponse(n, e);
      && ((m.matchIndex > 0) == (m.rejectIndex > 0) ==> r == CommitOutcome(Stay(Halt(n)), false))
      && ((m.matchIndex > 0) != (m.rejectIndex > 0) && e.from !in n.role.progress ==> r == CommitOutcome(Stay(n), false))
      && ((m.matchIndex > 0) != (m.rejectIndex > 0) && e.from in n.role.progress ==>
            var n1 := NotePeer(n, e.from);
            n1.role.Leader? && Ok(n1) && e.from in n1.role.progress && n1.log == n.log
            && (m.matchIndex > |n1.log| || m.rejectIndex > |n1.log| ==> r == CommitOutcome(Stay(Halt(n1)), false))
            && (m.matchIndex <= |n1.log| && m.rejectIndex <= |n1.log| && m.matchIndex > 0 ==>
                  var r2 := OnMatch(n1, e.from, m.matchIndex);
                  r2.outcome.node.role.Leader? && LeaderOk(r2.outcome.node)
                  && r == CommitOutcome(SendAppend(r2.outcome.node, e.from, false).Also(r2.outcome.out), r2.stepDown))
            && (m.rejectIndex <= |n1.log| && m.matchIndex == 0 ==>
                  var p := n1.role.progress[e.from];
                  r == if m.rejectIndex <= p.matchIndex || !p.Regresses(m.rejectIndex) then CommitOutcome(Stay(n1), false)
                       else CommitOutcome(Probe(n1, e.from, m.rejectIndex), false)))
  {
    hide OnMatch, SendAppend, Probe;
  }

  lemma AloneSteps(r: Outcome)
    requires r.node.role.Leader? && Ok(r.node)
    ensures CommitIfAlone(r) == CommitOutcome(CommitIfAlone(Stay(r.node)).outcome.Also(r.out), CommitIfAlone(Stay(r.node)).stepDown)
  {
    hide CommitAndApply;
    if ClusterSize(r.node) != 1 { assert multiset{} + r.out == r.out; }
    else { assert CommitAndApply(r.node).outcome.out + multiset{} == CommitAndApply(r.node).outcome.out; }
  }

  lemma WriteSteps(n: Node, client: Client, request: Request)
    requires n.role.Leader? && Ok(n) && (request.WriteRequest? || request.SessionRequest?)
    ensures CanAppend(n)
    ensures var r := Propose(n, Some(CommandOf(request)));
      var n1 := r.node.(role := r.node.role.(writes := r.node.role.writes[|r.node.log| := client]));
      Ok(n1) && OnWrite(n, client, request) ==
        CommitOutcome(CommitIfAlone(Stay(n1)).outcome.Also(r.out), CommitIfAlone(Stay(n1)).stepDown)
  {
    var r := Propose(n, Some(CommandOf(request)));
    var n1 := r.node.(role := r.node.role.(writes := r.node.role.writes[|r.node.log| := client]));
    assert Ok(n1);
    hide CommitIfAlone, Propose;
    AloneSteps(Outcome(n1, r.out));
  }

  lemma ChangeSteps(n: Node, client: Client, voters: set<NodeId>)
    requires n.role.Leader? && Ok(n)
    ensures CanAppend(n)
    ensures ChangeError(n, voters).Some? ==>
      OnRequest(n, client, ChangeMembership(voters))
        == CommitOutcome(Outcome(n, multiset{Respond(n, client, Failed(InvalidInput(ChangeError(n, voters).value)))}), false)
    ensures ChangeError(n, voters).None? ==>
      n.membership.active.Simple?
      && var r := ProposeMembership(n, Joint(n.membership.active.config, Membership(voters)));
         var n1 := r.node.(role := r.node.role.(membershipWrites := r.node.role.membershipWrites[|r.node.log| := client]));
         Ok(n1) && OnRequest(n, client, ChangeMembership(voters)) ==
           CommitOutcome(CommitIfAlone(Stay(n1)).outcome.Also(r.out), CommitIfAlone(Stay(n1)).stepDown)
  {
    hide CommitIfAlone, ProposeMembership;
    if ChangeError(n, voters).None? {
      var r := ProposeMembership(n, Joint(n.membership.active.config, Membership(voters)));
      var n1 := r.node.(role := r.node.role.(membershipWrites := r.node.role.membershipWrites[|r.node.log| := client]));
      ChangeWaits(n, client, Joint(n.membership.active.config, Membership(voters)));
      AloneSteps(Outcome(n1, r.out));
    }
  }

  lemma ChangeWaits(n: Node, client: Client, m: MembershipEntry)
    requires n.role.Leader? && Ok(n)
    ensures CanAppend(n)
    ensures var r := ProposeMembership(n, m).node;
      Ok(r.(role := r.role.(membershipWrites := r.role.membershipWrites[|r.log| := client])))
  {
  }

  lemma ReadSteps(n: Node, client: Client, query: ReadCommand)
    requires n.role.Leader? && Ok(n)
    ensures var n1 := Queued(n, client, query);
      Ok(n1) && OnRequest(n, client, ReadRequest(query)) ==
        CommitOutcome((if ClusterSize(n1) == 1 then AnswerReads(n1) else Stay(n1)).Also(Broadcast(n1, Message.Read(n1.role.readSeq))), false)
  {
    hide AnswerReads, Broadcast;
  }

  lemma LeaderSteps(n: Node, e: Envelope, timeout: Ticks)
    requires n.role.Leader? && Ok(n)
    ensures var r := LeaderStep(n, e, timeout);
      && (e.message.PreCampaign? ==> r == Reply1(n, e.from, PreCampaignResponse(false)))
      && (e.message.PreCampaignResponse? || (e.term < n.term && !e.message.PreCampaign?) ==> r == Stay(n))
      && (!IsPreVote(e.message) && e.term > n.term ==>
            var d := StepDown(n, e.term, timeout);
            d.node.role.Follower? && Ok(d.node) && r == FollowerAtTerm(d.node, e).Also(d.out))
      && (!IsPreVote(e.message) && e.term == n.term ==>
            var l := LeaderAtTerm(n, e);
            (l.stepDown ==> l.outcome.node.role.Leader? && Ok(l.outcome.node))
            && r == if l.stepDown then StepDown(l.outcome.node, l.outcome.node.term, timeout).Also(l.outcome.out) else l.outcome)
  {
    hide LeaderAtTerm, FollowerAtTerm, AbortTable, AbortReads;
  }

  lemma LeaderTickSteps(n: Node, timeout: Ticks)
    requires n.role.Leader? && Ok(n)
    ensures var n1 := n.(role := n.role.(
        peerSeen := map p | p in n.role.peerSeen :: Min(n.role.peerSeen[p] + 1, MAX_TICKS),
        sinceHeartbeat := n.role.sinceHeartbeat + 1));
      Ok(n1)
      && var r := if n1.role.sinceHeartbeat >= n1.opts.heartbeatInterval then Announce(n1) else Stay(n1);
         r.node.role.Leader? && Ok(r.node)
         && LeaderTick(n, timeout) ==
            if r.node.opts.checkQuorum && ClusterSize(r.node) > 1 && !r.node.membership.active.HasQuorum(Active(r.node)) then
              StepDown(r.node, r.node.term, timeout).Also(r.out)
            else r
  {
    hide StepDown, Broadcast;
  }

  lemma AtTermSteps(n: Node, e: Envelope)
    requires n.role.Leader? && Ok(n)
    ensures var m, r := e.message, LeaderAtTerm(n, e);
      && (m.HeartbeatResponse? ==> r == OnHeartbeatResponse(n, e))
      && (m.AppendResponse? ==> r == OnAppendResponse(n, e))
      && (m.ReadResponse? && e.from !in n.role.progress ==> r == CommitOutcome(Stay(n), false))
      && (m.ReadResponse? && e.from in n.role.progress ==>
            var n1 := NotePeer(n, e.from);
            n1.role.Leader? && Ok(n1) && e.from in n1.role.progress && r == CommitOutcome(OnReadAck(n1, e.from, m.readSeq), false))
      && (m.ClientRequest? ==> r == OnRequest(n, Client(e.from, m.id), m.request))
      && (m.Campaign? ==> r == CommitOutcome(Reply1(n, e.from, CampaignResponse(false)), false))
      && (m.ClientResponse? ==> r == CommitOutcome(Stay(Halt(n)), false))
      && (!(m.HeartbeatResponse? || m.AppendResponse? || m.ReadResponse? || m.ClientRequest? || m.Campaign? || m.ClientResponse?) ==>
            r == CommitOutcome(Stay(n), false))
  {
    hide OnHeartbeatResponse, OnAppendResponse, OnReadAck, OnRequest, Ok, NotePeer;
    NotedOk(n, e.from);
  }

  // ------------------------------------------------------ candidates

  lemma WinSteps(n: Node)
    requires n.role.Candidate? && Ok(n)
    ensures n.term == 0 || n.vote != Some(n.id) || n.role.phase != Election ==> WinElection(n) == Stay(Halt(n))
    ensures !(n.term == 0 || n.vote != Some(n.id) || n.role.phase != Election) ==>
      CanAppend(NewLeader(n))
      && var r1 := Propose(NewLeader(n), None);
         var r2 := CommitAndApply(r1.node).outcome;
         var r3 := Announce(r2.node);
         r1.node.role.Leader? && Ok(r1.node) && r2.node.role.Leader? && Ok(r2.node)
         && WinElection(n) == Outcome(r3.node, r1.out + r2.out + r3.out)
  {
    hide Propose, CommitAndApply, Announce;
  }

  lemma StartsAnElection(n: Node, timeout: Ticks)
    requires Ok(n) && n.role.Candidate?
    ensures var r := StartElection(n, timeout).node; r.role.Candidate? && Ok(r)
  {
    hide Broadcast;
  }

  lemma CandidateAtTermSteps(n: Node, e: Envelope, timeout: Ticks)
    requires n.role.Candidate? && Ok(n)
    ensures Ok(LoseElection(n, e.from, timeout)) && LoseElection(n, e.from, timeout).role.Follower?
    ensures var m, r := e.message, CandidateAtTerm(n, e, timeout);
      && (m.CampaignResponse? ==> r == if !m.vote || n.role.phase != Election then Stay(n) else VoteCounted(n, e.from))
      && (m.Campaign? ==> r == Reply1(n, e.from, CampaignResponse(false)))
      && (m.Heartbeat? || m.Append? || m.Read? ==> r == FollowerAtTerm(LoseElection(n, e.from, timeout), e))
      && (m.ClientRequest? ==> r == Reply1(n, e.from, ClientResponse(m.id, Failed(Abort))))
      && (!(m.CampaignResponse? || m.Campaign? || m.Heartbeat? || m.Append? || m.Read? || m.ClientRequest?) ==> r == Stay(Halt(n)))
  {
    hide FollowerAtTerm, WinElection;
  }

  lemma CandidateSteps(n: Node, e: Envelope, timeout: Ticks)
    requires n.role.Candidate? && Ok(n)
    ensures var m, r := e.message, CandidateStep(n, e, timeout);
      && (m.PreCampaign? ==> r == Reply1(n, e.from, PreCampaignResponse(UpToDate(n, m.lastIndex, m.lastTerm) && e.term > n.term)))
      && (m.PreCampaignResponse? ==> r == if !m.vote || n.role.phase != PreVote then Stay(n) else PreVoteCounted(n, e.from, timeout))
      && (!IsPreVote(m) && e.term < n.term ==> r == Stay(n))
      && (!IsPreVote(m) && e.term == n.term ==> r == CandidateAtTerm(n, e, timeout))
      && (!IsPreVote(m) && e.term > n.term ==>
            var b := BecomeLeaderless(n, e.term, timeout);
            b.node.role.Follower? && Ok(b.node) && r == FollowerAtTerm(b.node, e).Also(b.out))
  {
    hide CandidateAtTerm, FollowerAtTerm, WinElection, StartElection;
  }

  lemma FollowerAtTermCases(n: Node, e: Envelope)
    requires n.role.Follower? && Ok(n)
    ensures var n1 := if n.role.leader == Some(e.from) then n.(role := n.role.(leaderSeen := 0)) else n;
      var r, m := FollowerAtTerm(n, e), e.message;
      && Ok(n1) && n1.role.Follower?
      && (m.Heartbeat? ==> r == OnHeartbeat(n1, e)) && (m.Append? ==> r == OnAppend(n1, e))
      && (m.Read? ==> r == OnRead(n1, e)) && (m.Campaign? ==> r == OnCampaign(n1, e))
      && (m.ClientRequest? || m.ClientResponse? ==> r == OnForward(n1, e))
      && (m.HeartbeatResponse? || m.AppendResponse? || m.ReadResponse? ==> r == Stay(Halt(n1)))
      && (m.PreCampaign? || m.PreCampaignResponse? || m.CampaignResponse? ==> r == Stay(n1))
  {
    hide OnHeartbeat, OnAppend, OnRead, OnCampaign, OnForward, Ok;
    SeenOk(n);
  }

  lemma FollowFrame(n: Node, from: NodeId)
    requires n.role.Follower?
    ensures var f := Follow(n, from); f.Some? ==> f.value.node == n.(role := f.value.node.role)
  {
  }

  class RawNode {
    const id: NodeId
    const opts: Options
    var membership: MembershipState
    var term: Term
    var vote: Option<NodeId>
    var log: seq<Entry>
    var commit: Index
    var machine: State
    var role: Role
    /** Everything sent so far, in order. */
    var outbox: seq<Envelope>

    constructor (n: Node)
      ensures Value() == n && outbox == []
    {
      id, opts, membership, term, vote, log, commit, machine, role :=
        n.id, n.opts, n.membership, n.term, n.vote, n.log, n.commit, n.machine, n.role;
      outbox := [];
    }

    function Value(): Node
      reads this`membership, this`term, this`vote, this`log, this`commit, this`machine, this`role
    {
      Node(id, membership, term, vote, log, commit, machine, opts, role)
    }

    ghost predicate Valid()
      reads this`membership, this`term, this`vote, this`log, this`commit, this`machine, this`role
    {
      Ok(Value())
    }

    /** The node is as after `r`, and has sent what `r` sends. */
    twostate predicate Did(r: Outcome)
      reads this
    {
      Value() == r.node && multiset(outbox) == multiset(old(outbox)) + r.out
    }

    // ------------------------------------------------------------ sending

    method Post(to: NodeId, message: Message)
      modifies this`outbox
      ensures outbox == old(outbox) + [Send(Value(), to, message)]
    {
      outbox := outbox + [Send(Value(), to, message)];
    }

    method BroadcastAll(message: Message)
      modifies this`outbox
      ensures multiset(outbox) == multiset(old(outbox)) + Broadcast(Value(), message)
    {
      PostAs(term, message);
      SentToAll(Value(), message);
    }

    /** A message to every peer, in the name of this term or the next. */
    method PostAs(asTerm: Term, message: Message)
      modifies this`outbox
      ensures multiset(outbox) == multiset(old(outbox)) + Sent(Value().(term := asTerm), Peers(Value()), message)
    {
      hide Sent, Peers;
      ghost var n := Value().(term := asTerm);
      var peers := Peers(Value());
      var rest := peers;
      ghost var done: set<NodeId> := {};
      SentNone(n, message);
      while rest != {}
        invariant rest !! done && rest + done == peers
        invariant multiset(outbox) == multiset(old(outbox)) + Sent(n, done, message)
        decreases |rest|
      {
        var p :| p in rest;
        SentOneMore(n, done, p, message);
        outbox := outbox + [Envelope(id, asTerm, p, message)];
        rest := rest - {p};
        done := done + {p};
      }
      assert done == peers;
    }

    /** Give up the requests that were forwarded to the leader. */
    method AbortForwardedRequests()
      requires role.Follower?
      modifies this`outbox, this`role
      ensures multiset(outbox) == multiset(old(outbox)) + AbortForwarded(old(Value()))
      ensures role == old(role).(forwarded := {})
    {
      var rest := role.forwarded;
      role := role.(forwarded := {});
      ghost var n := Value();
      ghost var done: set<RequestId> := {};
      while rest != {}
        invariant rest !! done && rest + done == old(role).forwarded && role == old(role).(forwarded := {})
        invariant multiset(outbox) == multiset(old(outbox)) + multiset(set r | r in done :: Send(Value(), id, ClientResponse(r, Failed(Abort))))
        decreases |rest|
      {
        var r :| r in rest;
        AbortSetStep(Value(), done, r);
        Post(id, ClientResponse(r, Failed(Abort)));
        rest := rest - {r};
        done := done + {r};
      }
      assert done == old(role).forwarded;
    }

    /** Apply what is committed and not yet applied. */
    method ApplyCommitted()
      requires Indexed(log) && commit <= |log|
      modifies this`machine, this`membership
      ensures Value() == MaybeApply(old(Value()))
    {
      while Applied(machine) < commit
        invariant MaybeApply(Value()) == MaybeApply(old(Value()))
        invariant Value() == old(Value()).(machine := machine, membership := membership)
        decreases commit - Applied(machine)
      {
        var entry := log[Applied(machine)];
        ApplyAdvances(machine, entry);
        if entry.membership.Some? { membership := membership.OnCommit(entry.membership.value); }
        machine := Apply(machine, entry).0;
      }
    }

    // ---------------------------------------------------------- followers

    /** Accept the sender of a leader's message as leader, if there is none yet. */
    method FollowSender(from: NodeId) returns (follows: bool)
      requires role.Follower?
      modifies this`role, this`outbox
      ensures follows <==> Follow(old(Value()), from).Some?
      ensures if follows then Did(Follow(old(Value()), from).value) else Did(Stay(old(Value())))
    {
      match role.leader
      case Some(leader) => return leader == from;
      case None =>
        if term == 0 { role := Halted; return true; }
        var timeout := role.electionTimeout;
        AbortForwardedRequests();
        role := if from in membership.active.AllVoters() then Follower(Some(from), 0, timeout, {}) else Halted;
        return true;
    }

    method HandleHeartbeat(e: Envelope)
      requires Valid() && role.Follower? && e.message.Heartbeat?
      modifies this
      ensures Did(OnHeartbeat(old(Value()), e))
    {
      hide Follow, MaybeApply, OnHeartbeat, Ok, Has, Indexed, AbortForwarded;
      var m := e.message;
      HeartbeatCases(Value(), e);
      if m.commitIndex > m.lastIndex { role := Halted; return; }
      var follows := FollowSender(e.from);
      if !follows || role.Halted? { return; }
      var matches := Has(log, m.lastIndex, e.term);
      Post(e.from, HeartbeatResponse(if matches then m.lastIndex else 0, m.readSeq));
      if matches && m.commitIndex > commit {
        commit := m.commitIndex;
        ApplyCommitted();
      }
    }

    method HandleAppend(e: Envelope)
      requires Valid() && role.Follower? && e.message.Append?
      modifies this
      ensures Did(OnAppend(old(Value()), e))
    {
      hide Follow, OnAppend, TakeAppend, Ok;
      var m := e.message;
      AppendCases(Value(), e);
      if m.entries != [] && m.baseIndex != m.entries[0].index - 1 { role := Halted; return; }
      var follows := FollowSender(e.from);
      if !follows || role.Halted? { return; }
      HandleEntries(e);
    }

    method HandleEntries(e: Envelope)
      requires e.message.Append?
      modifies this
      ensures Did(TakeAppend(old(Value()), e))
    {
      hide LogSpec.Splice, AdoptMembership;
      var m := e.message;
      if m.baseIndex == 0 || Has(log, m.baseIndex, m.baseTerm) {
        var taken := TakeEntries(m.entries);
        if !taken { role := Halted; return; }
        Post(e.from, AppendResponse(m.baseIndex + |m.entries|, 0));
      } else {
        Post(e.from, AppendResponse(0, Min(m.baseIndex, |log| + 1)));
      }
    }

    method TakeEntries(es: seq<Entry>) returns (taken: bool)
      modifies this`log, this`membership
      ensures var r := LogSpec.Splice(old(log), 1, commit, term, es);
        (taken <==> r.Some?) && log == (if taken then r.value else old(log))
      ensures membership == if taken then AdoptMembership(old(membership), es) else old(membership)
    {
      hide LogSpec.Splice;
      var spliced := LogSpec.Splice(log, 1, commit, term, es);
      if spliced.None? { return false; }
      log := spliced.value;
      AdoptFrom(es);
      return true;
    }

    /** Bring the configurations among new entries into force. */
    method AdoptFrom(es: seq<Entry>)
      modifies this`membership
      ensures membership == AdoptMembership(old(membership), es)
    {
      assert es[0..] == es;
      for i := 0 to |es|
        invariant AdoptMembership(membership, es[i..]) == AdoptMembership(old(membership), es)
      {
        assert es[i..][1..] == es[i + 1..];
        if es[i].membership.Some? { membership := membership.ApplyEntry(es[i].membership.value); }
      }
    }

    method HandleRead(e: Envelope)
      requires role.Follower? && e.message.Read?
      modifies this
      ensures Did(OnRead(old(Value()), e))
    {
      var follows := FollowSender(e.from);
      if !follows || role.Halted? { return; }
      Post(e.from, ReadResponse(e.message.readSeq));
    }

    method HandleCampaign(e: Envelope)
      requires role.Follower? && e.message.Campaign?
      modifies this
      ensures Did(OnCampaign(old(Value()), e))
    {
      if vote.Some? && e.from != vote.value {
        Post(e.from, CampaignResponse(false));
        return;
      }
      if !UpToDate(Value(), e.message.lastIndex, e.message.lastTerm) {
        Post(e.from, CampaignResponse(false));
        return;
      }
      if e.term == 0 { role := Halted; return; }
      term, vote := e.term, Some(e.from);
      Post(e.from, CampaignResponse(true));
    }

    /** Requests go on to the leader, its answers back to the client. */
    method HandleForward(e: Envelope)
      requires role.Follower? && (e.message.ClientRequest? || e.message.ClientResponse?)
      modifies this
      ensures Did(OnForward(old(Value()), e))
    {
      match e.message
      case ClientRequest(request, _) =>
        if e.from != id || role.leader.None? {
          Post(e.from, ClientResponse(request, Failed(Abort)));
        } else {
          var leader := role.leader.value;
          role := role.(forwarded := role.forwarded + {request});
          Post(leader, e.message);
        }
      case ClientResponse(request, response) =>
        if role.leader == Some(e.from) && request in role.forwarded {
          role := role.(forwarded := role.forwarded - {request});
          Post(id, e.message);
        }
    }

    /** A message of the follower's own term. */
    method StepFollowerAtTerm(e: Envelope)
      requires Valid() && role.Follower?
      modifies this
      ensures Did(FollowerAtTerm(old(Value()), e))
    {
      hide OnHeartbeat, OnAppend, OnRead, OnCampaign, OnForward, FollowerAtTerm, Ok;
      ghost var n := Value();
      SeenOk(n);
      FollowerAtTermCases(n, e);
      if role.leader == Some(e.from) { role := role.(leaderSeen := 0); }
      assert Value() == if n.role.leader == Some(e.from) then n.(role := n.role.(leaderSeen := 0)) else n;
      match e.message
      case Heartbeat(_, _, _) => HandleHeartbeat(e);
      case Append(_, _, _) => HandleAppend(e);
      case Read(_) => HandleRead(e);
      case Campaign(_, _) => HandleCampaign(e);
      case ClientRequest(_, _) => HandleForward(e);
      case ClientResponse(_, _) => HandleForward(e);
      case HeartbeatResponse(_, _) => role := Halted;
      case AppendResponse(_, _) => role := Halted;
      case ReadResponse(_) => role := Halted;
      case _ =>
    }

    method StepFollowerPreVote(e: Envelope)
      requires role.Follower?
      modifies this`outbox
      ensures Did(FollowerPreVote(old(Value()), e))
    {
      if e.message.PreCampaign? {
        if role.leader.Some? && role.leaderSeen < role.electionTimeout {
          Post(e.from, PreCampaignResponse(false));
          return;
        }
        Post(e.from, PreCampaignResponse(UpToDate(Value(), e.message.lastIndex, e.message.lastTerm) && e.term > term));
      }
    }

    /** A later term: leave whatever role this is, without a leader and a vote. */
    method EnterTerm(newTerm: Term, timeout: Ticks)
      requires !role.Leader?
      modifies this
      ensures Did(BecomeLeaderless(old(Value()), newTerm, timeout))
    {
      if role.Follower? { AbortForwardedRequests(); }
      term, vote := newTerm, None;
      role := Follower(None, 0, timeout, {});
    }

    method StepFollower(e: Envelope, timeout: Ticks)
      requires Valid() && role.Follower?
      modifies this
      ensures Did(FollowerStep(old(Value()), e, timeout))
    {
      hide FollowerAtTerm, FollowerPreVote;
      if IsPreVote(e.message) { StepFollowerPreVote(e); return; }
      if e.term < term { return; }
      if e.term > term { EnterTerm(e.term, timeout); }
      StepFollowerAtTerm(e);
    }

    // --------------------------------------------------------- candidates

    method TickFollower(timeout: Ticks)
      requires Valid() && role.Follower?
      modifies this
      ensures Did(FollowerTick(old(Value()), timeout))
    {
      hide StandForElection;
      role := role.(leaderSeen := role.leaderSeen + 1);
      if role.leaderSeen >= role.electionTimeout { IntoCandidate(true, timeout); }
    }

    method IntoCandidate(usePreVote: bool, timeout: Ticks)
      requires Valid() && role.Follower?
      modifies this
      ensures Did(StandForElection(old(Value()), usePreVote, timeout))
    {
      hide StartPreVote, StartElection, AbortForwarded;
      AbortForwardedRequests();
      ApplyCommitted();
      AppliedAlike(old(Value()), role);
      StartAnew(MaybeApply(old(Value())), role, timeout);
      if usePreVote && opts.preVote { PreCampaignNow(timeout); } else { CampaignNow(timeout); }
    }

    /** Ask for pre-votes in a term that is not entered yet. */
    method PreCampaignNow(timeout: Ticks)
      modifies this
      ensures Did(StartPreVote(old(Value()), timeout))
    {
      hide StartElection, StartPreVote, Sent;
      PreVoteSteps(Value(), timeout);
      role := Candidate({id}, 0, timeout, PreVote);
      if ClusterSize(Value()) == 1 { CampaignNow(timeout); return; }
      PostAs(term + 1, PreCampaign(|log|, LastTerm(log)));
      if membership.active.HasQuorum(role.votes) { CampaignNow(timeout); }
    }

    /** Enter the next term, vote for oneself and ask for votes. */
    method CampaignNow(timeout: Ticks)
      modifies this
      ensures Did(StartElection(old(Value()), timeout))
    {
      role := Candidate({id}, 0, timeout, Election);
      term, vote := term + 1, Some(id);
      BroadcastAll(Campaign(|log|, LastTerm(log)));
    }

    method TickCandidate(timeout: Ticks)
      requires role.Candidate?
      modifies this
      ensures Did(CandidateTick(old(Value()), timeout))
    {
      hide StartPreVote, StartElection;
      role := role.(electionDuration := role.electionDuration + 1);
      if role.electionDuration >= role.electionTimeout {
        if opts.preVote { PreCampaignNow(timeout); } else { CampaignNow(timeout); }
      }
    }

    // ------------------------------------------------- leaders: replication

    /** Send a peer the entries it needs next, or nothing but the base to probe for. */
    method MaybeSendAppend(peer: NodeId, probe: bool)
      requires role.Leader? && LeaderOk(Value())
      modifies this`role, this`outbox
      ensures Did(SendAppend(old(Value()), peer, probe))
    {
      hide LeaderOk;
      if peer !in role.progress { return; }
      var p := role.progress[peer];
      ProgressAt(Value(), peer);
      ghost var unchanged' := role.progress[peer := p];
      assert unchanged' == role.progress;
      if p.matchIndex == |log| { return; }
      var probing := probe && p.nextIndex > p.matchIndex + 1;
      if p.nextIndex > |log| && !probing { return; }
      var base := p.nextIndex - 1;
      var upTo := if probing then base else Min(|log|, base + opts.maxAppendEntries);
      var message := Append(base, TermAt(log, base), log[base..upTo]);
      role := role.(progress := role.progress[peer := p.(nextIndex := upTo + 1)]);
      Post(peer, message);
    }

    /** Offer the last entry to the peers that wait for exactly it. */
    method OfferLast()
      requires role.Leader? && Valid()
      modifies this`role, this`outbox
      ensures Did(Offer(old(Value())))
    {
      hide SendAppend, Ok, LeaderOk, OfferedProgress, OfferedOut, NextAppend, Offer;
      ghost var n, sent := Value(), multiset(outbox);
      ProgressIsPeers(n);
      OfferedNone(n);
      var peers := Peers(Value());
      var rest := peers;
      ghost var done: set<NodeId> := {};
      while rest != {}
        invariant rest !! done && rest + done == peers && OfferedSoFar(n, done, sent)
        decreases |rest|
      {
        var p :| p in rest;
        OfferTo(p, n, done, sent);
        rest := rest - {p};
        done := done + {p};
      }
      assert done == peers;
      OfferedAll(n);
    }

    ghost predicate OfferedSoFar(n: Node, done: set<NodeId>, sent: multiset<Envelope>)
      requires n.role.Leader? && LeaderOk(n)
      reads this
    {
      Value() == n.(role := n.role.(progress := OfferedProgress(n, done))) && multiset(outbox) == sent + OfferedOut(n, done)
    }

    method OfferTo(p: NodeId, ghost n: Node, ghost done: set<NodeId>, ghost sent: multiset<Envelope>)
      requires n.role.Leader? && LeaderOk(n) && p in n.role.progress && p !in done && OfferedSoFar(n, done, sent)
      modifies this`role, this`outbox
      ensures OfferedSoFar(n, done + {p}, sent)
    {
      hide SendAppend, LeaderOk, OfferedProgress, OfferedOut, NextAppend;
      OfferedOneMore(n, done, p);
      if role.progress[p].nextIndex == |log| { MaybeSendAppend(p, false); }
    }

    /** Append an entry of the leader's own term and offer it. */
    method ProposeEntry(command: Option<Command>)
      requires CanAppend(Value())
      modifies this`log, this`role, this`outbox
      ensures Did(Propose(old(Value()), command))
    {
      hide Offer;
      log := log + [Entry(|log| + 1, term, command, None)];
      OfferLast();
    }

    /** Follow the peers of the configuration in force. */
    method SyncTables()
      requires role.Leader?
      modifies this`role
      ensures Value() == SyncProgress(old(Value()))
    {
      var peers := Peers(Value());
      role := role.(
        progress := map p | p in peers :: if p in role.progress then role.progress[p] else Progress(0, |log| + 1, 0),
        peerSeen := map p | p in peers :: if p in role.peerSeen then role.peerSeen[p] else 0);
    }

    method ProposeConfiguration(m: MembershipEntry)
      requires CanAppend(Value())
      modifies this`log, this`membership, this`role, this`outbox
      ensures Did(ProposeMembership(old(Value()), m))
    {
      hide Offer;
      log := log + [Entry(|log| + 1, term, None, Some(m))];
      membership := membership.ApplyEntry(m);
      SyncTables();
      OfferLast();
    }

    // ---------------------------------------------------- leaders: reads

    /** The greatest read sequence number that a quorum has confirmed. */
    method QuorumReadSeq() returns (q: nat)
      requires role.Leader?
      ensures forall serial: nat :: 1 <= serial <= role.readSeq ==> (serial <= q <==> Confirmed(Value(), serial))
    {
      var candidates := {role.readSeq} + set p | p in role.progress :: role.progress[p].readSeq;
      ghost var all := candidates;
      while candidates != {}
        invariant candidates <= all
        invariant forall c :: c in all - candidates ==> !membership.active.HasQuorum(Reached(Value(), c))
        invariant forall c, d :: c in all - candidates && d in candidates ==> d <= c
        decreases |candidates|
      {
        var c := Greatest(candidates);
        if membership.active.HasQuorum(Reached(Value(), c)) {
          q := c;
          GreatestConfirmed(Value(), all, candidates, c);
          return;
        }
        assert forall x :: x in all - (candidates - {c}) ==> x == c || x in all - candidates;
        candidates := candidates - {c};
      }
      NoneConfirmed(Value(), all);
      return 0;
    }

    /** Answer the confirmed reads at the head of the queue. */
    method MaybeRead()
      requires role.Leader? && Valid()
      modifies this`role, this`outbox
      ensures Did(AnswerReads(old(Value())))
    {
      hide Confirmed, Ok;
      ReadsInOrder(Value());
      if role.pendingReads == [] { return; }
      if !CanRead(Value()) { return; }
      var q := QuorumReadSeq();
      ghost var n := Value();
      while role.pendingReads != [] && role.pendingReads[0].serial <= q
        invariant role.Leader? && Value() == n.(role := n.role.(pendingReads := role.pendingReads)) && Ok(Value())
        invariant ReadsOrdered(role.pendingReads, role.readSeq)
        invariant AnswerReads(n).node == AnswerReads(Value()).node
        invariant multiset(old(outbox)) + AnswerReads(n).out == multiset(outbox) + AnswerReads(Value()).out
        decreases |role.pendingReads|
      {
        PopOne(Value(), n, q);
        var read := role.pendingReads[0];
        role := role.(pendingReads := role.pendingReads[1..]);
        Post(read.client.from, ClientResponse(read.client.id, ReadResult(Machine.Read(machine, read.query))));
      }
      StopReading(Value(), n, q);
    }

    // ------------------------------------------------- leaders: committing

    /** The greatest index of the leader's own term that a quorum holds. */
    method FindCommit() returns (target: Index)
      requires role.Leader? && commit <= |log|
      ensures target == CommitTarget(Value(), |log|)
    {
      hide Committable;
      var index := |log|;
      while index > commit
        invariant commit <= index <= |log| && CommitTarget(Value(), |log|) == CommitTarget(Value(), index)
      {
        if Committable(Value(), index) { return index; }
        index := index - 1;
      }
      return commit;
    }

    /** Apply everything committed, answer the writes that wait, and collect the
        configurations that were applied. */
    method ApplyAndAnswer() returns (committed: seq<MembershipEntry>)
      requires role.Leader? && Valid()
      modifies this`machine, this`membership, this`role, this`outbox
      ensures Did(ApplyAll(old(Value())))
      ensures committed == Configurations(log, old(Applied(machine)), commit)
    {
      hide ApplyNext, ApplyAll, Configurations, LeaderOk;
      committed := [];
      ghost var n, start, sent := Value(), Applied(machine), multiset(outbox);
      ApplyRange(n);
      while Applied(machine) < commit
        invariant role.Leader? && Valid() && start <= Applied(machine) <= commit <= |log|
        invariant ApplyAll(n).node == ApplyAll(Value()).node && sent + ApplyAll(n).out == multiset(outbox) + ApplyAll(Value()).out
        invariant committed == Configurations(log, start, Applied(machine))
        decreases commit - Applied(machine)
      {
        ConfigurationsStep(log, start, Applied(machine));
        ApplyStep(Value());
        var entry := log[Applied(machine)];
        if entry.membership.Some? { committed := committed + [entry.membership.value]; }
        ApplyOne();
      }
      ApplyStep(Value());
    }

    method ApplyOne()
      requires role.Leader? && Valid() && Applied(machine) < commit
      modifies this`machine, this`membership, this`role, this`outbox
      ensures Did(ApplyNext(old(Value()))) && role.Leader? && Valid() && Applied(machine) == old(Applied(machine)) + 1
    {
      var entry := log[Applied(machine)];
      var i := entry.index;
      var write := if i in role.writes then Some(role.writes[i]) else None;
      var change := if i in role.membershipWrites then Some(role.membershipWrites[i]) else None;
      role := role.(writes := Remove(role.writes, i), membershipWrites := Remove(role.membershipWrites, i));
      if entry.membership.Some? {
        membership := membership.OnCommit(entry.membership.value);
        machine := Apply(machine, entry.(command := None)).0;
        if change.Some? { Post(change.value.from, ClientResponse(change.value.id, MembershipResult(i))); }
      } else {
        var reply: Reply;
        var applied := Apply(machine, entry);
        machine, reply := applied.0, applied.1;
        if write.Some? { Post(write.value.from, ClientResponse(write.value.id, WriteResult(reply))); }
      }
    }

    /** Commit what a quorum holds, apply it, and follow up on configurations. */
    method MaybeCommitAndApply() returns (stepDown: bool)
      requires role.Leader? && Valid()
      modifies this
      ensures var r := CommitAndApply(old(Value())); Did(r.outcome) && stepDown == r.stepDown
    {
      hide ApplyAll, AfterConfigurations, AnswerReads, Configurations, CommitTarget, CommitAndApply, Ok, TermAt;
      ghost var n := Value();
      CommitSteps(n);
      var target := FindCommit();
      if target <= commit { return false; }
      var oldTerm := TermAt(log, commit);
      commit := target;
      assert Value() == n.(commit := target);
      var committed := ApplyAndAnswer();
      ghost var applied := Value();
      assert applied == ApplyAll(n.(commit := target)).node;
      stepDown := FollowUp(committed);
      assert Value() == AfterConfigurations(applied, committed).outcome.node;
      FourParts(multiset(old(outbox)), ApplyAll(n.(commit := target)).out, AfterConfigurations(applied, committed).outcome.out,
                if oldTerm != term then AnswerReads(Value()).out else multiset{});
      if oldTerm != term { MaybeRead(); }
    }

    /** After each configuration, its Simple successor, the peers it leaves, and whether
        this node is still one of them. */
    method FollowUp(ms: seq<MembershipEntry>) returns (stepDown: bool)
      requires role.Leader? && Valid()
      modifies this`log, this`membership, this`role, this`outbox
      ensures var r := AfterConfigurations(old(Value()), ms); Did(r.outcome) && stepDown == r.stepDown
    {
      hide ProposeMembership, AfterConfigurations, LeaderOk;
      stepDown := false;
      ghost var n, sent := Value(), multiset(outbox);
      assert ms[0..] == ms;
      for i := 0 to |ms|
        invariant role.Leader? && Valid()
        invariant AfterConfigurations(n, ms).outcome.node == AfterConfigurations(Value(), ms[i..]).outcome.node
        invariant sent + AfterConfigurations(n, ms).outcome.out == multiset(outbox) + AfterConfigurations(Value(), ms[i..]).outcome.out
        invariant AfterConfigurations(n, ms).stepDown == (stepDown || AfterConfigurations(Value(), ms[i..]).stepDown)
      {
        FollowUpStep(Value(), ms[i..]);
        assert ms[i..][0] == ms[i] && ms[i..][1..] == ms[i + 1..];
        var removed := FollowOne(ms[i]);
        if removed { stepDown := true; }
      }
      FollowedUp(Value());
      assert ms[|ms|..] == [];
    }

    method FollowOne(m: MembershipEntry) returns (removed: bool)
      requires role.Leader? && Valid()
      modifies this`log, this`membership, this`role, this`outbox
      ensures var r := if m.Joint? then ProposeMembership(old(Value()), Simple(m.incoming)) else Stay(old(Value()));
        Did(Outcome(SyncProgress(r.node), r.out))
      ensures removed == (membership.active.Simple? && id !in membership.active.AllVoters())
    {
      hide ProposeMembership;
      if m.Joint? { ProposeConfiguration(Simple(m.incoming)); }
      SyncTables();
      return membership.active.Simple? && id !in membership.active.AllVoters();
    }

    // ------------------------------------------------------ leaders: steps

    method SendHeartbeat()
      requires role.Leader? && Valid()
      modifies this`role, this`outbox
      ensures Did(Announce(old(Value())))
    {
      ghost var n := Value();
      AnnounceAlike(n);
      role := role.(sinceHeartbeat := 0);
      BroadcastAll(Heartbeat(|log|, commit, role.readSeq));
    }

    /** Leave office, for a later term or within this one: every pending request is aborted. */
    method StepDownTo(newTerm: Term, timeout: Ticks)
      requires role.Leader? && Valid()
      modifies this
      ensures Did(StepDown(old(Value()), newTerm, timeout))
    {
      hide AbortTable, AbortReads, Ok, StepDown;
      TablesInRange(Value());
      StepDownSteps(Value(), newTerm, timeout);
      if newTerm > term { term, vote := newTerm, None; }
      ghost var leaving := Value();
      AbortWaiting(role.writes);
      AbortWaiting(role.membershipWrites);
      AbortReaders(role.pendingReads);
      assert Value() == leaving;
      role := Follower(None, 0, timeout, {});
      assert Value() == leaving.(role := role);
    }

    method AbortWaiting(table: map<Index, Client>)
      requires forall i :: i in table ==> i < |log| + 1
      modifies this`outbox
      ensures multiset(outbox) == multiset(old(outbox)) + AbortTable(Value(), table, 0, |log| + 1)
    {
      hide AbortTable;
      var rest := table;
      ghost var n, sent := Value(), multiset(outbox);
      while rest != map[]
        invariant forall i :: i in rest ==> i in table
        invariant sent + AbortTable(n, table, 0, |log| + 1) == multiset(outbox) + AbortTable(n, rest, 0, |log| + 1)
        decreases |rest.Keys|
      {
        var i :| i in rest;
        AbortOneOf(n, rest, i, 0, |log| + 1);
        Post(rest[i].from, ClientResponse(rest[i].id, Failed(Abort)));
        assert (rest - {i}).Keys == rest.Keys - {i};
        rest := rest - {i};
      }
      AbortNothing(n, 0, |log| + 1);
    }

    method AbortReaders(pending: seq<PendingRead>)
      modifies this`outbox
      ensures multiset(outbox) == multiset(old(outbox)) + AbortReads(Value(), pending)
    {
      var rest := pending;
      ghost var sent := multiset(outbox);
      while rest != []
        invariant sent + AbortReads(Value(), pending) == multiset(outbox) + AbortReads(Value(), rest)
        decreases |rest|
      {
        Post(rest[0].client.from, ClientResponse(rest[0].client.id, Failed(Abort)));
        rest := rest[1..];
      }
    }

    method NoteResponse(from: NodeId)
      requires role.Leader?
      modifies this`role
      ensures Value() == NotePeer(old(Value()), from)
    {
      if from in role.peerSeen { role := role.(peerSeen := role.peerSeen[from := 0]); }
    }

    method ConfirmReads(peer: NodeId, serial: nat)
      requires role.Leader? && Valid() && peer in role.progress
      modifies this`role, this`outbox
      ensures Did(OnReadAck(old(Value()), peer, serial))
    {
      hide AnswerReads;
      if serial <= role.progress[peer].readSeq { return; }
      role := role.(progress := role.progress[peer := role.progress[peer].AdvanceRead(serial)]);
      MaybeRead();
    }

    method Matched(peer: NodeId, index: Index) returns (stepDown: bool)
      requires role.Leader? && Valid() && peer in role.progress && index <= |log|
      modifies this
      ensures var r := OnMatch(old(Value()), peer, index); Did(r.outcome) && stepDown == r.stepDown
    {
      hide CommitAndApply;
      if index <= role.progress[peer].matchIndex { return false; }
      role := role.(progress := role.progress[peer := role.progress[peer].Advance(index)]);
      stepDown := MaybeCommitAndApply();
    }

    method ProbeFrom(peer: NodeId, next: Index)
      requires role.Leader? && Valid() && peer in role.progress
      modifies this`role, this`outbox
      ensures Did(Probe(old(Value()), peer, next))
    {
      hide SendAppend;
      role := role.(progress := role.progress[peer := role.progress[peer].Regress(next)]);
      MaybeSendAppend(peer, true);
    }

    method HandleHeartbeatResponse(e: Envelope) returns (stepDown: bool)
      requires role.Leader? && Valid() && e.message.HeartbeatResponse?
      modifies this
      ensures var r := OnHeartbeatResponse(old(Value()), e); Did(r.outcome) && stepDown == r.stepDown
    {
      hide OnMatch, OnReadAck, Probe, Ok, OnHeartbeatResponse;
      var m := e.message;
      HeartbeatResponseSteps(Value(), e);
      if e.from !in role.progress { return false; }
      NoteResponse(e.from);
      if m.matchIndex > |log| || m.readSeq > role.readSeq {
        role := Halted;
        return false;
      }
      ConfirmReads(e.from, m.readSeq);
      if m.matchIndex == 0 { ProbeFrom(e.from, |log|); }
      stepDown := Matched(e.from, m.matchIndex);
    }

    method HandleAppendResponse(e: Envelope) returns (stepDown: bool)
      requires role.Leader? && Valid() && e.message.AppendResponse?
      modifies this
      ensures var r := OnAppendResponse(old(Value()), e); Did(r.outcome) && stepDown == r.stepDown
    {
      hide OnMatch, SendAppend, Probe, Ok, OnAppendResponse;
      var m := e.message;
      AppendResponseSteps(Value(), e);
      if (m.matchIndex > 0) == (m.rejectIndex > 0) {
        role := Halted;
        return false;
      }
      if e.from !in role.progress { return false; }
      NoteResponse(e.from);
      if m.matchIndex > |log| || m.rejectIndex > |log| {
        role := Halted;
        return false;
      }
      if m.matchIndex > 0 {
        stepDown := Matched(e.from, m.matchIndex);
        MaybeSendAppend(e.from, false);
        return;
      }
      var p := role.progress[e.from];
      if m.rejectIndex > p.matchIndex && p.Regresses(m.rejectIndex) { ProbeFrom(e.from, m.rejectIndex); }
      return false;
    }

    method CommitAlone() returns (stepDown: bool)
      requires role.Leader? && Valid()
      modifies this
      ensures var c := CommitIfAlone(Stay(old(Value()))); Did(c.outcome) && stepDown == c.stepDown
    {
      hide CommitAndApply;
      if ClusterSize(Value()) == 1 { stepDown := MaybeCommitAndApply(); } else { stepDown := false; }
    }

    method HandleWrite(client: Client, request: Request) returns (stepDown: bool)
      requires role.Leader? && Valid() && (request.WriteRequest? || request.SessionRequest?)
      modifies this
      ensures var r := OnWrite(old(Value()), client, request); Did(r.outcome) && stepDown == r.stepDown
    {
      hide CommitIfAlone, Propose, OnWrite, Ok, CanAppend;
      WriteSteps(Value(), client, request);
      ProposeEntry(Some(CommandOf(request)));
      role := role.(writes := role.writes[|log| := client]);
      stepDown := CommitAlone();
    }

    method HandleChange(client: Client, voters: set<NodeId>) returns (stepDown: bool)
      requires role.Leader? && Valid()
      modifies this
      ensures var r := OnRequest(old(Value()), client, ChangeMembership(voters)); Did(r.outcome) && stepDown == r.stepDown
    {
      hide CommitIfAlone, ProposeMembership, OnRequest, Ok, CanAppend, ChangeError;
      ChangeSteps(Value(), client, voters);
      var error := ChangeError(Value(), voters);
      if error.Some? {
        Post(client.from, ClientResponse(client.id, Failed(InvalidInput(error.value))));
        return false;
      }
      ProposeConfiguration(Joint(membership.active.config, Membership(voters)));
      role := role.(membershipWrites := role.membershipWrites[|log| := client]);
      stepDown := CommitAlone();
    }

    method HandleReadRequest(client: Client, query: ReadCommand)
      requires role.Leader? && Valid()
      modifies this
      ensures Did(OnRequest(old(Value()), client, ReadRequest(query)).outcome) && !OnRequest(old(Value()), client, ReadRequest(query)).stepDown
    {
      hide AnswerReads, Broadcast, OnRequest, Ok;
      ReadSteps(Value(), client, query);
      role := role.(readSeq := role.readSeq + 1,
                    pendingReads := role.pendingReads + [PendingRead(role.readSeq + 1, client, query)]);
      BroadcastAll(Message.Read(role.readSeq));
      if ClusterSize(Value()) == 1 { MaybeRead(); }
    }

    method HandleRequest(client: Client, request: Request) returns (stepDown: bool)
      requires role.Leader? && Valid()
      modifies this
      ensures var r := OnRequest(old(Value()), client, request); Did(r.outcome) && stepDown == r.stepDown
    {
      hide OnWrite, CommitIfAlone, AnswerReads, Broadcast, ProposeMembership, Ok;
      stepDown := false;
      match request
      case WriteRequest(_) => stepDown := HandleWrite(client, request);
      case SessionRequest(_, _, _) => stepDown := HandleWrite(client, request);
      case ReadRequest(query) => HandleReadRequest(client, query);
      case StatusRequest => Post(client.from, ClientResponse(client.id, Status(Value())));
      case ChangeMembership(voters) => stepDown := HandleChange(client, voters);
    }

    /** A message of the leader's own term. */
    method StepLeaderAtTerm(e: Envelope) returns (stepDown: bool)
      requires role.Leader? && Valid()
      modifies this
      ensures var r := LeaderAtTerm(old(Value()), e); Did(r.outcome) && stepDown == r.stepDown
    {
      hide OnHeartbeatResponse, OnAppendResponse, OnReadAck, OnRequest, LeaderAtTerm, Ok;
      AtTermSteps(Value(), e);
      stepDown := false;
      match e.message
      case HeartbeatResponse(_, _) => stepDown := HandleHeartbeatResponse(e);
      case AppendResponse(_, _) => stepDown := HandleAppendResponse(e);
      case ReadResponse(serial) =>
        if e.from in role.progress {
          NoteResponse(e.from);
          ConfirmReads(e.from, serial);
        }
      case ClientRequest(request, payload) => stepDown := HandleRequest(Client(e.from, request), payload);
      case Campaign(_, _) => Post(e.from, CampaignResponse(false));
      case ClientResponse(_, _) => role := Halted;
      case _ =>
    }

    method StepLeader(e: Envelope, timeout: Ticks)
      requires role.Leader? && Valid()
      modifies this
      ensures Did(LeaderStep(old(Value()), e, timeout))
    {
      hide LeaderAtTerm, FollowerAtTerm, StepDown, Ok, LeaderStep;
      LeaderSteps(Value(), e, timeout);
      if e.message.PreCampaign? { Post(e.from, PreCampaignResponse(false)); return; }
      if e.message.PreCampaignResponse? || e.term < term { return; }
      if e.term > term {
        StepDownTo(e.term, timeout);
        StepFollowerAtTerm(e);
        return;
      }
      var stepDown := StepLeaderAtTerm(e);
      if stepDown { StepDownTo(term, timeout); }
    }

    method TickLeader(timeout: Ticks)
      requires role.Leader? && Valid()
      modifies this
      ensures Did(LeaderTick(old(Value()), timeout))
    {
      hide StepDown, Announce, LeaderTick, Ok;
      LeaderTickSteps(Value(), timeout);
      role := role.(peerSeen := map p | p in role.peerSeen :: Min(role.peerSeen[p] + 1, MAX_TICKS),
                    sinceHeartbeat := role.sinceHeartbeat + 1);
      if role.sinceHeartbeat >= opts.heartbeatInterval { SendHeartbeat(); }
      if opts.checkQuorum && ClusterSize(Value()) > 1 && !membership.active.HasQuorum(Active(Value())) {
        StepDownTo(term, timeout);
      }
    }

    // --------------------------------------------------- winning and losing

    /** Take office: write an empty entry of the new term, commit what that allows, and
        tell everyone. */
    method IntoLeader()
      requires role.Candidate? && Valid()
      modifies this
      ensures Did(WinElection(old(Value())))
    {
      hide WinElection, Propose, CommitAndApply, Announce, Ok, CanAppend;
      WinSteps(Value());
      if term == 0 || vote != Some(id) || role.phase != Election {
        role := Halted;
        return;
      }
      var peers := Peers(Value());
      role := Leader(map p | p in peers :: Progress(0, |log| + 1, 0), map[], map[], [], 0, 0, map p | p in peers :: 0);
      ProposeEntry(None);
      var _ := MaybeCommitAndApply();
      SendHeartbeat();
    }

    method CountVote(from: NodeId)
      requires role.Candidate? && Valid()
      modifies this
      ensures Did(VoteCounted(old(Value()), from))
    {
      hide WinElection;
      if from in membership.active.AllVoters() { role := role.(votes := role.votes + {from}); }
      if membership.active.HasQuorum(role.votes) { IntoLeader(); }
    }

    /** Another node won: follow it. */
    method FollowWinner(e: Envelope, timeout: Ticks)
      requires role.Candidate? && Valid()
      modifies this
      ensures Ok(LoseElection(old(Value()), e.from, timeout))
      ensures Did(FollowerAtTerm(LoseElection(old(Value()), e.from, timeout), e))
    {
      hide FollowerAtTerm;
      role := Follower(Some(e.from), 0, timeout, {});
      StepFollowerAtTerm(e);
    }

    method StepCandidateAtTerm(e: Envelope, timeout: Ticks)
      requires role.Candidate? && Valid()
      modifies this
      ensures Did(CandidateAtTerm(old(Value()), e, timeout))
    {
      hide CandidateAtTerm, VoteCounted, FollowerAtTerm, LoseElection, Ok;
      CandidateAtTermSteps(Value(), e, timeout);
      match e.message
      case CampaignResponse(granted) => if granted && role.phase == Election { CountVote(e.from); }
      case Campaign(_, _) => Post(e.from, CampaignResponse(false));
      case Heartbeat(_, _, _) => FollowWinner(e, timeout);
      case Append(_, _, _) => FollowWinner(e, timeout);
      case Read(_) => FollowWinner(e, timeout);
      case ClientRequest(request, _) => Post(e.from, ClientResponse(request, Failed(Abort)));
      case _ => role := Halted;
    }

    method CountPreVote(from: NodeId, timeout: Ticks)
      requires role.Candidate? && Valid()
      modifies this
      ensures Did(PreVoteCounted(old(Value()), from, timeout))
    {
      hide WinElection, StartElection;
      if from in membership.active.AllVoters() { role := role.(votes := role.votes + {from}); }
      if membership.active.HasQuorum(role.votes) {
        StartsAnElection(Value(), timeout);
        CampaignNow(timeout);
        if membership.active.HasQuorum(role.votes) { IntoLeader(); }
      }
    }

    method StepCandidate(e: Envelope, timeout: Ticks)
      requires role.Candidate? && Valid()
      modifies this
      ensures Did(CandidateStep(old(Value()), e, timeout))
    {
      hide CandidateStep, CandidateAtTerm, FollowerAtTerm, PreVoteCounted, Ok, BecomeLeaderless, UpToDate;
      CandidateSteps(Value(), e, timeout);
      var m := e.message;
      if m.PreCampaign? {
        Post(e.from, PreCampaignResponse(UpToDate(Value(), m.lastIndex, m.lastTerm) && e.term > term));
        return;
      }
      if m.PreCampaignResponse? {
        if m.vote && role.phase == PreVote { CountPreVote(e.from, timeout); }
        return;
      }
      if e.term < term { return; }
      if e.term == term { StepCandidateAtTerm(e, timeout); return; }
      EnterTerm(e.term, timeout);
      StepFollowerAtTerm(e);
    }

    // -------------------------------------------------------- entry points

    /** Handle one message. */
    method Step(e: Envelope, timeout: Ticks)
      requires Valid()
      modifies this
      ensures Did(RaftNode.Step(old(Value()), e, timeout)) && Valid()
    {
      hide FollowerStep, CandidateStep, LeaderStep, Ok;
      StepKeepsOk(Value(), e, timeout);
      if e.to != id { role := Halted; return; }
      if !KnownSender(Value(), e.from) { return; }
      match role
      case Follower(_, _, _, _) => StepFollower(e, timeout);
      case Candidate(_, _, _, _) => StepCandidate(e, timeout);
      case Leader(_, _, _, _, _, _, _) => StepLeader(e, timeout);
      case Halted =>
    }

    /** One unit of time passed. */
    method Tick(timeout: Ticks)
      requires Valid()
      modifies this
      ensures Did(RaftNode.Tick(old(Value()), timeout)) && Valid()
    {
      hide FollowerTick, CandidateTick, LeaderTick, Ok;
      TickKeepsOk(Value(), timeout);
      match role
      case Follower(_, _, _, _) => TickFollower(timeout);
      case Candidate(_, _, _, _) => TickCandidate(timeout);
      case Leader(_, _, _, _, _, _, _) => TickLeader(timeout);
      case Halted =>
    }
  }

  /** The configuration in force at start-up, from one pass over the log. */
  method LatestMembership(bootstrap: MembershipState, log: seq<Entry>, commit: Index) returns (m: MembershipState)
    ensures m == RestoreMembership(bootstrap, log, commit)
  {
    m := bootstrap;
    for i := 0 to |log|
      invariant m == RestoreMembership(bootstrap, log[..i], commit)
    {
      assert log[..i + 1][..i] == log[..i];
      if log[i].membership.Some? {
        var c := log[i].membership.value;
        m := MembershipState(c, !(c.Simple? && log[i].index <= commit));
      }
    }
    assert log[..|log|] == log;
  }

  /** Start a node on what its disk holds. A single voter elects itself at once; a node
      among its own peers is an error, shown as null. */
  method Launch(id: NodeId, peers: set<NodeId>, term: Term, vote: Option<NodeId>, log: seq<Entry>, commit: Index,
                opts: Options, timeout: Ticks) returns (result: RawNode?)
    requires Indexed(log) && commit <= |log|
    ensures result == null <==> id in peers
    ensures result != null ==> fresh(result) && result.Valid()
    ensures result != null ==>
      var r := Start(id, peers, term, vote, log, commit, opts, timeout);
      result.Value() == r.node && multiset(result.outbox) == r.out
  {
    hide StandForElection, WinElection, MaybeApply;
    if id in peers { return null; }
    var membership := LatestMembership(Bootstrap(id, peers), log, commit);
    var node := new RawNode(Node(id, membership, term, vote, log, commit, EmptyState, opts, Follower(None, 0, timeout, {})));
    node.ApplyCommitted();
    if ClusterSize(node.Value()) == 1 {
      StandForElectionKeeps(node.Value(), false, timeout);
      node.IntoCandidate(false, timeout);
      WinElectionKeeps(node.Value());
      node.IntoLeader();
    }
    return node;
  }

  method Greatest(s: set<nat>) returns (g: nat)
    requires s != {}
    ensures g in s && forall x :: x in s ==> x <= g
  {
    g :| g in s;
    var rest := s - {g};
    while rest != {}
      invariant rest <= s && g in s && forall x :: x in s - rest ==> x <= g
      decreases |rest|
    {
      var x :| x in rest;
      assert forall y :: y in s - (rest - {x}) ==> y == x || y in s - rest;
      rest := rest - {x};
      if x > g { g := x; }
    }
    assert s - rest == s;
  }
}
