/** What a leader with a majority achieves (src/raft/node.rs:1694-1715, 1770-1824,
    2133-2346): acknowledgements of a majority commit the log, and everyone waiting on it is
    answered with what his entry gave. */
module Availability {
  import opened Basics
  import opened Configuration
  import opened Machine
  import opened LogSpec
  import opened Messages
  import opened RaftNode
  import opened NodeInvariant
  import opened Refinement
  import opened Elections
  import opened Leading
  import opened Serving
  import CatchUp
  import LeaderRefinement
  import Reconfiguration

  // ------------------------------------------------- one acknowledgement

  lemma CommitKeepsMembership(n: Node)
    requires n.role.Leader? && Ok(n) && NoChanges(n.log)
    ensures CommitAndApply(n).outcome.node.membership == n.membership
  {
    hide CommitAndApply, CommitTarget, LeaderOk;
    if Reconfiguration.Advances(n) {
      LeaderRefinement.NoConfigurations(n.log, Applied(n.machine), CommitTarget(n, |n.log|));
      Reconfiguration.CommitFrame(n);
    } else {
      Reconfiguration.NoCommit(n);
    }
  }

  lemma MatchKeeps(n: Node, peer: NodeId, index: Index)
    requires n.role.Leader? && Ok(n) && NoChanges(n.log) && peer in n.role.progress && index <= |n.log|
    ensures var r := OnMatch(n, peer, index).outcome.node;
      && r.role.Leader? && Ok(r) && r.log == n.log && r.term == n.term && r.id == n.id && r.opts == n.opts && r.membership == n.membership
      && r.role.progress == n.role.progress[peer := n.role.progress[peer].Advance(index)]
    ensures !OnMatch(n, peer, index).stepDown
  {
    hide CommitAndApply, LeaderOk, NoChanges;
    CatchUp.MatchedFrame(n, peer, index);
    if index > n.role.progress[peer].matchIndex {
      AdvancedOk(n, peer, index);
      CommitKeepsMembership(SetProgress(n, peer, n.role.progress[peer].Advance(index)));
    }
  }

  /** What does not change when a peer acknowledges the whole log. */
  predicate SameBut(n: Node, r: Node, peer: NodeId) {
    && n.role.Leader? && r.role.Leader? && Ok(r)
    && r.log == n.log && r.term == n.term && r.id == n.id && r.opts == n.opts && r.membership == n.membership
    && r.role.progress.Keys == n.role.progress.Keys && peer in n.role.progress && r.role.progress[peer].matchIndex == |n.log|
    && forall p :: p in n.role.progress && p != peer ==> r.role.progress[p].matchIndex == n.role.progress[p].matchIndex
  }

  function Ack(n: Node, from: NodeId): Envelope {
    Envelope(from, n.term, n.id, AppendResponse(|n.log|, 0))
  }

  lemma AckHandled(n: Node, from: NodeId)
    requires Ok(n) && n.role.Leader? && from in n.role.progress
    ensures Handles(n, Ack(n, from))
  {
    assert from in Peers(n);
  }

  lemma AckValue(n: Node, from: NodeId, timeout: Ticks)
    requires Ok(n) && n.role.Leader? && NoChanges(n.log) && from in n.role.progress
    ensures var n1 := NotePeer(n, from);
      && n1.role.Leader? && Ok(n1) && from in n1.role.progress
      && Step(n, Ack(n, from), timeout).node == OnMatch(n1, from, |n.log|).outcome.node
  {
    var e := Ack(n, from);
    AckHandled(n, from);
    HandlesAtTerm(n, e, timeout);
    NotedOk(n, from);
    NotedSame(n, from);
    LogNotEmpty(n);
    var n1 := NotePeer(n, from);
    hide Step, OnMatch, LeaderOk, NotePeer, SendAppend;
    MatchKeeps(n1, from, |n.log|);
    PeerBounded(n, from);
    NothingToSend(OnMatch(n1, from, |n.log|).outcome.node, from);
    assert LeaderAtTerm(n, e) == OnAccepted(n1, from, |n.log|);
  }

  lemma AckKeeps(n: Node, from: NodeId, timeout: Ticks)
    requires Ok(n) && n.role.Leader? && NoChanges(n.log) && from in n.role.progress
    ensures var r := Step(n, Ack(n, from), timeout); SameBut(n, r.node, from) && Serves(n, r)
    ensures n.role.progress[from].matchIndex == |n.log| ==> Step(n, Ack(n, from), timeout).node.commit == n.commit
  {
    AckValue(n, from, timeout);
    NotedSame(n, from);
    PeerBounded(n, from);
    MatchKeeps(NotePeer(n, from), from, |n.log|);
    hide Step, LeaderOk, NotePeer, Serves, CommitAndApply;
    StepServes(n, Ack(n, from), timeout);
  }

  lemma LogNotEmpty(n: Node)
    requires Ok(n) && n.role.Leader?
    ensures n.log != [] && n.log[|n.log| - 1].term == n.term
  {
  }

  lemma PeerBounded(n: Node, from: NodeId)
    requires Ok(n) && n.role.Leader? && from in n.role.progress
    ensures n.role.progress[from].matchIndex <= |n.log|
  {
  }

  lemma NothingToSend(n: Node, peer: NodeId)
    requires n.role.Leader? && Ok(n) && peer in n.role.progress && n.role.progress[peer].matchIndex == |n.log|
    ensures SendAppend(n, peer, false) == Stay(n)
  {
    assert n.role.progress[peer := n.role.progress[peer]] == n.role.progress;
  }

  // --------------------------------------------------- a commit as a whole

  /** The leader after these peers have acknowledged its whole log, one by one, and all it
      has sent on the way. */
  function Acknowledged(n: Node, from: seq<NodeId>, timeout: Ticks): (r: Outcome)
    requires Ok(n)
    ensures Ok(r.node)
    decreases |from|
  {
    if from == [] then Stay(n)
    else
      var r := Acknowledged(n, from[..|from| - 1], timeout);
      StepKeepsOk(r.node, Ack(r.node, from[|from| - 1]), timeout);
      Step(r.node, Ack(r.node, from[|from| - 1]), timeout).Also(r.out)
  }

  /** The leader as it is while some peers are known to hold its whole log. */
  predicate HeldBy(n: Node, r: Node, from: seq<NodeId>) {
    && n.role.Leader? && r.role.Leader? && Ok(r)
    && r.log == n.log && r.term == n.term && r.id == n.id && r.opts == n.opts && r.membership == n.membership
    && r.role.progress.Keys == n.role.progress.Keys
    && forall p :: p in n.role.progress ==> r.role.progress[p].matchIndex == if p in from then |n.log| else n.role.progress[p].matchIndex
  }

  lemma HeldByNext(n: Node, r: Node, r': Node, from: seq<NodeId>, peer: NodeId)
    requires HeldBy(n, r, from) && SameBut(r, r', peer)
    ensures HeldBy(n, r', from + [peer])
  {
    hide Ok;
  }

  /** The peer that completes the majority has the whole log committed. */
  lemma CompletesMajority(n: Node, r: Node, from: seq<NodeId>, peer: NodeId, timeout: Ticks)
    requires HeldBy(n, r, from) && peer in n.role.progress && n.role.progress[peer].matchIndex < |n.log| && r.commit < |n.log|
    requires Majority(n.membership.active, {n.id} + Voters(from + [peer])) && peer !in from
    requires forall p :: p in from ==> p in n.role.progress
    ensures var r' := Step(r, Ack(r, peer), timeout).node; r'.commit == |n.log| == Applied(r'.machine)
  {
    hide Step, Majority, LeaderOk;
    var e := Ack(r, peer);
    AckHandled(r, peer);
    LogNotEmpty(r);
    assert {n.id} + Voters(from + [peer]) <= HoldersOnce(r, peer, |n.log|, |n.log|);
    MajorityGrows(n.membership.active, {n.id} + Voters(from + [peer]), HoldersOnce(r, peer, |n.log|, |n.log|));
    AcknowledgedCommits(r, e, timeout, |n.log|);
    assert Decided(r, peer, |n.log|, |n.log|);
  }

  /** With a majority it has committed everything, and what is all committed is applied. */
  predicate CommitsWith(n: Node, r: Node, from: seq<NodeId>) {
    && (Majority(n.membership.active, {n.id} + Voters(from)) ==> r.commit == |n.log|)
    && (r.commit == |n.log| ==> Applied(r.machine) == |n.log|)
  }

  /** Acknowledgements of any majority, in any order and with repetitions, commit the whole
      log of a leader, and everyone who waited for a write or a change is answered with
      what his entry gives. Configurations are left out, for committing one changes what a
      majority is. */
  lemma {:induction false} CanCommit(n: Node, from: seq<NodeId>, timeout: Ticks)
    requires Ok(n) && n.role.Leader? && NoChanges(n.log) && n.commit < |n.log| && n.membership.active.AllVoters() != {n.id}
    requires forall p :: p in from ==> p in n.role.progress && n.role.progress[p].matchIndex < |n.log|
    ensures var r := Acknowledged(n, from, timeout);
      HeldBy(n, r.node, from) && Serves(n, r) && CommitsWith(n, r.node, from)
    decreases |from|
  {
    hide Step, Majority, LeaderOk, Serves, NoChanges;
    if from == [] {
      ServesStay(n);
      AloneDecides(n.membership.active, n.id);
      JointNeedsBoth(n.membership.active, {n.id});
      assert {n.id} + Voters(from) == {n.id};
    } else {
      var k := |from| - 1;
      var before, peer := from[..k], from[k];
      CanCommit(n, before, timeout);
      var r := Acknowledged(n, before, timeout);
      assert from == before + [peer];
      AckKeeps(r.node, peer, timeout);
      HeldByNext(n, r.node, Step(r.node, Ack(r.node, peer), timeout).node, before, peer);
      ServesTwice(n, r, Step(r.node, Ack(r.node, peer), timeout));
      NextCommitsWith(n, r.node, before, peer, timeout);
    }
  }

  lemma NextCommitsWith(n: Node, r: Node, from: seq<NodeId>, peer: NodeId, timeout: Ticks)
    requires HeldBy(n, r, from) && CommitsWith(n, r, from) && NoChanges(n.log)
    requires forall p :: p in from + [peer] ==> p in n.role.progress && n.role.progress[p].matchIndex < |n.log|
    ensures CommitsWith(n, Step(r, Ack(r, peer), timeout).node, from + [peer])
  {
    hide Step, Majority, LeaderOk, NoChanges;
    AckKeeps(r, peer, timeout);
    if peer in from {
      assert Voters(from + [peer]) == Voters(from);
    } else if r.commit < |n.log| {
      AckHandled(r, peer);
      AcknowledgedCommits(r, Ack(r, peer), timeout, |n.log|);
      if Majority(n.membership.active, {n.id} + Voters(from + [peer])) { CompletesMajority(n, r, from, peer, timeout); }
    }
    CommitsOnly(r, Step(r, Ack(r, peer), timeout));
  }

  lemma CommitsOnly(n: Node, r: Outcome)
    requires Serves(n, r) && r.node.log == n.log
    ensures n.commit == |n.log| == Applied(n.machine) ==> r.node.commit == |n.log| == Applied(r.node.machine)
  {
  }

  /** So a client whose write reaches a majority has its result. */
  lemma MajorityServes(n: Node, from: seq<NodeId>, timeout: Ticks, i: Index)
    requires Ok(n) && n.role.Leader? && NoChanges(n.log) && n.commit < |n.log| && n.membership.active.AllVoters() != {n.id}
    requires forall p :: p in from ==> p in n.role.progress && n.role.progress[p].matchIndex < |n.log|
    requires Majority(n.membership.active, {n.id} + Voters(from)) && i in n.role.writes
    ensures Applied(n.machine) < i <= |n.log|
    ensures Envelope(n.id, n.term, n.role.writes[i].from,
                     ClientResponse(n.role.writes[i].id, WriteResult(ReplyAt(n, n.log, i)))) in Acknowledged(n, from, timeout).out
  {
    CanCommit(n, from, timeout);
    hide Acknowledged, Majority, LeaderOk, ReplyAt;
    assert WriteServed(n, Acknowledged(n, from, timeout), i);
  }

  // ------------------------------------------- the first commit of a term

  lemma {:induction false} ApplyKeepsReads(n: Node)
    requires n.role.Leader? && Ok(n)
    ensures var r := ApplyAll(n).node;
      r == n.(machine := r.machine, membership := r.membership, role := n.role.(writes := r.role.writes, membershipWrites := r.role.membershipWrites))
    decreases n.commit - Applied(n.machine)
  {
    if Applied(n.machine) < n.commit { ApplyKeepsReads(ApplyNext(n).node); }
  }

  /** Those who have confirmed reads up to that number. */
  function Confirming(n: Node, serial: nat): set<NodeId>
    requires n.role.Leader?
  {
    {n.id} + set p | p in n.role.progress && n.role.progress[p].readSeq >= serial
  }

  /** A majority has confirmed the read. */
  predicate ConfirmedNow(n: Node, serial: nat)
    requires n.role.Leader?
  {
    Majority(n.membership.active, Confirming(n, serial))
  }

  /** With the first commit of its term a leader answers every read that a majority has
      confirmed already, on the state it has come to. */
  lemma FirstCommitAnswers(n: Node, e: Envelope, timeout: Ticks, read: PendingRead)
    requires Ok(n) && Handles(n, e) && NoChanges(n.log) && e.message.AppendResponse? && e.from in n.role.progress
    requires e.message.rejectIndex == 0 && n.role.progress[e.from].matchIndex < e.message.matchIndex <= |n.log|
    requires n.commit == 0 || n.log[n.commit - 1].term != n.term
    requires read in n.role.pendingReads && ConfirmedNow(n, read.serial)
    ensures var r := Step(n, e, timeout); r.node.commit > n.commit ==> ReadAnswer(r.node, read) in r.out
  {
    hide Step, LeaderOk, NotePeer, LeaderAtTerm, OnMatch, OnAccepted, ConfirmedNow, NoChanges;
    HandlesFirst(n, e, timeout);
    NotedOk(n, e.from);
    NotedSame(n, e.from);
    var n1 := NotePeer(n, e.from);
    SameConfirmations(n, n1, read.serial);
    MatchKeeps(n1, e.from, e.message.matchIndex);
    MatchReleases(n1, e.from, e.message.matchIndex, read);
    AcceptedValue(n, e, e.message.matchIndex, n1);
    AcceptedParts(n1, e.from, e.message.matchIndex);
  }

  lemma AcceptedValue(n: Node, e: Envelope, index: Index, n1: Node)
    requires n.role.Leader? && Ok(n) && e.message == AppendResponse(index, 0) && e.from in n.role.progress && n1 == NotePeer(n, e.from)
    requires 0 < index <= |n.log|
    ensures n1.role.Leader? && Ok(n1) && e.from in n1.role.progress && n1.log == n.log
    ensures LeaderAtTerm(n, e) == OnAccepted(n1, e.from, index)
  {
    hide LeaderOk, NotePeer, OnAccepted, Probe, OnMatch, SendAppend;
    NotedOk(n, e.from);
  }

  lemma AcceptedParts(n: Node, peer: NodeId, index: Index)
    requires n.role.Leader? && Ok(n) && peer in n.role.progress && index <= |n.log|
    ensures var m, r := OnMatch(n, peer, index), OnAccepted(n, peer, index);
      r.outcome.node == m.outcome.node.(role := r.outcome.node.role) && m.outcome.out <= r.outcome.out && r.stepDown == m.stepDown
  {
    hide OnMatch, LeaderOk, SendAppend;
    SendKeeps(OnMatch(n, peer, index).outcome.node, peer, false);
  }

  lemma MatchReleases(n: Node, peer: NodeId, index: Index, read: PendingRead)
    requires n.role.Leader? && Ok(n) && NoChanges(n.log) && (n.commit == 0 || n.log[n.commit - 1].term != n.term)
    requires peer in n.role.progress && n.role.progress[peer].matchIndex < index <= |n.log|
    requires read in n.role.pendingReads && ConfirmedNow(n, read.serial)
    ensures var r := OnMatch(n, peer, index).outcome; r.node.commit > n.commit ==> ReadAnswer(r.node, read) in r.out
  {
    hide CommitAndApply, LeaderOk, ConfirmedNow, NoChanges, ReadAnswer;
    var n1 := SetProgress(n, peer, n.role.progress[peer].Advance(index));
    AdvancedOk(n, peer, index);
    SameConfirmations(n, n1, read.serial);
    CommitReleases(n1, read);
  }

  lemma SameConfirmations(n: Node, n2: Node, serial: nat)
    requires n.role.Leader? && n2.role.Leader? && n2 == n.(role := n2.role) && n2.role.progress.Keys == n.role.progress.Keys
    requires forall p :: p in n.role.progress ==> n2.role.progress[p].readSeq == n.role.progress[p].readSeq
    ensures ConfirmedNow(n2, serial) == ConfirmedNow(n, serial)
  {
    hide Majority;
    assert Confirming(n2, serial) == Confirming(n, serial);
  }

  lemma CommitReleases(n: Node, read: PendingRead)
    requires n.role.Leader? && Ok(n) && NoChanges(n.log) && (n.commit == 0 || n.log[n.commit - 1].term != n.term)
    requires read in n.role.pendingReads && ConfirmedNow(n, read.serial)
    ensures var r := CommitAndApply(n).outcome; r.node.commit > n.commit ==> ReadAnswer(r.node, read) in r.out
  {
    hide CommitAndApply, CommitTarget, AnswerReads, ApplyAll, LeaderOk, Confirmed, Configurations, ConfirmedNow;
    var target := CommitTarget(n, |n.log|);
    if target > n.commit {
      var n1 := n.(commit := target);
      OwnTermCommit(n, target);
      FirstOfTerm(n);
      LeaderRefinement.NoConfigurations(n.log, Applied(n.machine), target);
      LeaderRefinement.CommitValue(n, target, ApplyAll(n1));
      ApplyKeepsReads(n1);
      var n2 := ApplyAll(n1).node;
      ReadsReleased(n2);
      AnswerReadsFrame(n2);
      CommitKeepsMembership(n);
      ReleasableNow(n, n2, read);
      ReleasedOut(n2, Releasable(n2), AnswerReads(n2));
    } else {
      Reconfiguration.NoCommit(n);
    }
  }

  lemma FirstOfTerm(n: Node)
    requires n.role.Leader? && Ok(n) && (n.commit == 0 || n.log[n.commit - 1].term != n.term)
    ensures TermAt(n.log, n.commit) != n.term
  {
  }

  lemma OwnTermCommit(n: Node, target: Index)
    requires n.role.Leader? && Ok(n) && target == CommitTarget(n, |n.log|) && n.commit < target
    ensures target <= |n.log| && n.log[target - 1].term == n.term && Ok(n.(commit := target))
  {
    Reconfiguration.CommitOk(n, target);
    hide LeaderOk;
  }

  lemma ReleasableNow(n: Node, n2: Node, read: PendingRead)
    requires n.role.Leader? && n2.role.Leader? && Ok(n2) && n2.log == n.log && n2.id == n.id && n2.term == n.term && n2.membership == n.membership
    requires n2.role.progress == n.role.progress && n2.role.pendingReads == n.role.pendingReads && n2.role.readSeq == n.role.readSeq
    requires 1 <= n2.commit <= |n.log| && n.log[n2.commit - 1].term == n.term && Applied(n2.machine) == n2.commit
    requires read in n.role.pendingReads && ConfirmedNow(n, read.serial)
    ensures read in Releasable(n2)
  {
    hide Majority;
    SerialsBounded(n2, read);
    assert Confirmers(n2, read.serial) == Confirming(n, read.serial);
    JointNeedsBoth(n2.membership.active, Confirmers(n2, read.serial));
    assert CanRead(n2);
    hide LeaderOk, CanRead;
  }

  // --------------------------------------------------------- a lone voter

  /** A lone voter commits a write as it takes it in, and answers it in the same step. */
  lemma AloneWrites(n: Node, e: Envelope, timeout: Ticks)
    requires Ok(n) && Handles(n, e) && e.message.ClientRequest? && (e.message.request.WriteRequest? || e.message.request.SessionRequest?)
    requires n.membership.active == Simple(Membership({n.id})) && n.opts.maxAppendEntries >= 1
    ensures var r := Step(n, e, timeout);
      var log := n.log + [Entry(|n.log| + 1, n.term, Some(Wanted(e.message.request)), None)];
      && log <= r.node.log && r.node.commit == |log| == Applied(r.node.machine) && Applied(n.machine) < |log|
      && r.node.term == n.term && (NoChanges(n.log) ==> r.node.role.Leader?)
      && Envelope(n.id, n.term, e.from, ClientResponse(e.message.id, WriteResult(ReplyAt(n, log, |log|)))) in r.out
  {
    hide Step, NoChanges, LeaderOk, OnWrite, OnRequest, ReplyAt, LeaderAtTerm, Wanted;
    HandlesFirst(n, e, timeout);
    RequestAtTerm(n, e);
    RequestIsWrite(n, Client(e.from, e.message.id), e.message.request);
    AloneWritten(n, Client(e.from, e.message.id), e.message.request);
  }

  lemma RequestIsWrite(n: Node, client: Client, request: Request)
    requires n.role.Leader? && Ok(n) && (request.WriteRequest? || request.SessionRequest?)
    ensures OnRequest(n, client, request) == OnWrite(n, client, request)
  {
    hide OnWrite, LeaderOk;
  }

  lemma AloneWritten(n: Node, client: Client, request: Request)
    requires n.role.Leader? && Ok(n) && (request.WriteRequest? || request.SessionRequest?) && n.opts.maxAppendEntries >= 1
    requires n.membership.active == Simple(Membership({n.id}))
    ensures var r := OnWrite(n, client, request);
      var log := n.log + [Entry(|n.log| + 1, n.term, Some(Wanted(request)), None)];
      && log <= r.outcome.node.log && r.outcome.node.commit == |log| == Applied(r.outcome.node.machine) && Applied(n.machine) < |log|
      && r.outcome.node.term == n.term && (NoChanges(n.log) ==> !r.stepDown)
      && Respond(n, client, WriteResult(ReplyAt(n, log, |log|))) in r.outcome.out
  {
    var i := |n.log| + 1;
    hide LeaderOk, CommitAndApply, OnWrite, Serves, CommitTarget, ReplyAt, Wanted;
    var n1, out := WriteQueued(n, client, request);
    CommitServes(n1);
    AloneDecidesAll(n1);
    CommitsTo(n1);
    ServedAt(n1, CommitAndApply(n1).outcome, i);
    SameReply(n, n1, n1.log, i);
  }

  lemma WriteQueued(n: Node, client: Client, request: Request) returns (n1: Node, out: multiset<Envelope>)
    requires n.role.Leader? && Ok(n) && (request.WriteRequest? || request.SessionRequest?) && n.opts.maxAppendEntries >= 1
    requires n.membership.active == Simple(Membership({n.id}))
    ensures n1.role.Leader? && Ok(n1) && n1.id == n.id && n1.term == n.term && n1.machine == n.machine && n1.membership == n.membership
    ensures n1.log == n.log + [Entry(|n.log| + 1, n.term, Some(Wanted(request)), None)] && n1.commit == n.commit
    ensures |n.log| + 1 in n1.role.writes && n1.role.writes[|n.log| + 1] == client
    ensures OnWrite(n, client, request) == CommitOutcome(CommitAndApply(n1).outcome.Also(out), CommitAndApply(n1).stepDown)
  {
    ProposeMeans(n, Some(Wanted(request)));
    assert CommandOf(request) == Wanted(request);
    ProposedWaits(n, Some(Wanted(request)), client);
    var p := Propose(n, Some(Wanted(request)));
    n1, out := p.node.(role := p.node.role.(writes := p.node.role.writes[|n.log| + 1 := client])), p.out;
    hide Propose, Moved, Appends, LeaderOk, CommitAndApply;
  }

  lemma CommitsTo(n: Node)
    requires n.role.Leader? && Ok(n) && CommitTarget(n, |n.log|) == |n.log| > n.commit
    ensures var r := CommitAndApply(n).outcome.node; r.commit == Applied(r.machine) == |n.log| && n.log <= r.log && r.term == n.term
    ensures NoChanges(n.log) ==> !CommitAndApply(n).stepDown
  {
    hide LeaderOk, CommitAndApply, CommitTarget;
    CommitReaches(n);
    if NoChanges(n.log) { CatchUp.CommitFrame(n); }
  }

  lemma AloneDecidesAll(n: Node)
    requires n.role.Leader? && Ok(n) && n.membership.active == Simple(Membership({n.id}))
    ensures CommitTarget(n, |n.log|) == |n.log|
  {
    AloneDecides(n.membership.active, n.id);
    QuorumMonotone(n.membership.active, {n.id}, Holders(n, |n.log|));
    assert Committable(n, |n.log|);
  }

  lemma ServedAt(n: Node, r: Outcome, i: Index)
    requires Serves(n, r) && i in n.role.writes && i <= Applied(r.node.machine)
    ensures Applied(n.machine) < i <= |n.log| && n.log <= r.node.log
    ensures Respond(n, n.role.writes[i], WriteResult(ReplyAt(n, n.log, i))) in r.out
  {
    hide Ok, StateAt, Apply;
    assert WriteServed(n, r, i);
    StateOfPrefix(n, n.log, r.node.log, i - 1);
  }

  lemma SameReply(n: Node, n1: Node, log: seq<Entry>, i: Index)
    requires n1.machine == n.machine && Applied(n.machine) < i <= |log|
    ensures ReplyAt(n1, log, i) == ReplyAt(n, log, i)
  {
  }

  /** A lone voter answers a read in the step that takes it in, once it has committed in its
      term. */
  lemma AloneReads(n: Node, e: Envelope, timeout: Ticks)
    requires Ok(n) && Handles(n, e) && e.message.ClientRequest? && e.message.request.ReadRequest?
    requires n.membership.active == Simple(Membership({n.id})) && Readable(n)
    ensures Envelope(n.id, n.term, e.from,
                     ClientResponse(e.message.id, ReadResult(Machine.Read(n.machine, e.message.request.query)))) in Step(n, e, timeout).out
  {
    hide Step, LeaderOk, LeaderAtTerm, OnRequest;
    HandlesFirst(n, e, timeout);
    RequestAtTerm(n, e);
    AloneRead(n, Client(e.from, e.message.id), e.message.request.query);
  }

  lemma RequestAtTerm(n: Node, e: Envelope)
    requires n.role.Leader? && Ok(n) && e.message.ClientRequest?
    ensures LeaderAtTerm(n, e) == OnRequest(n, Client(e.from, e.message.id), e.message.request)
  {
    hide OnRequest, LeaderOk;
  }

  lemma AloneRead(n: Node, client: Client, query: ReadCommand)
    requires n.role.Leader? && Ok(n) && n.membership.active == Simple(Membership({n.id})) && Readable(n)
    ensures Respond(n, client, ReadResult(Machine.Read(n.machine, query))) in OnRequest(n, client, ReadRequest(query)).outcome.out
  {
    var read := PendingRead(n.role.readSeq + 1, client, query);
    var n1 := Queued(n, client, query);
    QueuedLast(n, client, query);
    AloneConfirms(n1, read.serial);
    ReadsReleased(n1);
    hide AnswerReads, LeaderOk, CanRead, Confirmed, Queued, Broadcast;
    ReleasedOut(n1, Releasable(n1), AnswerReads(n1));
    assert ReadAnswer(n1, read) in AnswerReads(n1).out;
  }

  lemma QueuedLast(n: Node, client: Client, query: ReadCommand)
    requires n.role.Leader? && Ok(n) && Readable(n)
    ensures var n1 := Queued(n, client, query);
      && n1.role.Leader? && Ok(n1) && CanRead(n1) && PendingRead(n.role.readSeq + 1, client, query) in n1.role.pendingReads
      && n1.id == n.id && n1.term == n.term && n1.machine == n.machine && n1.membership == n.membership
  {
  }

  lemma AloneConfirms(n: Node, serial: nat)
    requires n.role.Leader? && n.membership.active == Simple(Membership({n.id})) && serial <= n.role.readSeq
    ensures Confirmed(n, serial)
  {
    AloneDecides(n.membership.active, n.id);
    QuorumMonotone(n.membership.active, {n.id}, Confirmers(n, serial));
  }
}
