/** Candidates and leaders as compositions of protocol moves (see Refinement.dfy). */
module LeaderRefinement {
  import opened Basics
  import opened Configuration
  import opened Machine
  import opened LogSpec
  import opened Messages
  import opened RaftNode
  import opened Protocol
  import opened ProtocolSteps
  import opened Refinement

  /** The representation, the moves and the messages after a step of node `n`. */
  ghost predicate Refines(w: World, w': World, n: Node, r: Outcome) {
    Rep(w', r.node) && r.node.id == n.id && Moves(w, w', n.id) && MsgsOk(w', r.out)
  }

  lemma RefinesChain(w: World, w1: World, w2: World, n: Node, r1: Outcome, r2: Outcome)
    requires Refines(w, w1, n, r1) && Refines(w1, w2, r1.node, r2)
    ensures Refines(w, w2, n, r2.Also(r1.out))
    ensures Refines(w, w2, n, Outcome(r2.node, r1.out + r2.out))
  {
    MovesChain(w, w1, w2, n.id);
    MsgsStable(w1, w2, r1.out);
  }

  lemma RefinesStay(w: World, n: Node)
    requires Rep(w, n)
    ensures Refines(w, w, n, Stay(n))
  {
    LeReflexive(w);
  }

  /** In the same world, another role and some messages that need no evidence. */
  lemma RefinesSame(w: World, n: Node, r: Outcome)
    requires Rep(w, n) && Rep(w, r.node) && r.node.id == n.id && MsgsOk(w, r.out)
    ensures Refines(w, w, n, r)
  {
    LeReflexive(w);
  }

  // ------------------------------------------------- recorded requests

  /** A read request arrived: the history keeps what the cluster looked like. */
  ghost predicate ReadArrived(w: World, w': World, n: Node, id: RequestId, query: ReadCommand)
    requires n.role.Leader?
  {
    var k := ReadId(n.term, n.role.readSeq + 1);
    && n.id in w.nodes
    && k !in w.h.asked && w'.h.asked == w.h.asked[k := Snapshot(w, n.id, id, query)]
    && w'.h.wrote == w.h.wrote
  }

  /** A write request was put at the next index. */
  ghost predicate WriteArrived(w: World, w': World, n: Node, id: RequestId, command: Command) {
    var k := Slot(n.term, |n.log| + 1);
    && k !in w.h.wrote && w'.h.wrote == w.h.wrote[k := Written(id, command)]
    && w'.h.asked == w.h.asked
  }

  /** A step records at most the request it handles as leader. */
  ghost predicate Recording(w: World, w': World, n: Node, e: Envelope) {
    || (w'.h.asked == w.h.asked && w'.h.wrote == w.h.wrote)
    || (n.role.Leader? && e.term == n.term && e.message.ClientRequest?
        && match e.message.request
           case ReadRequest(query) => ReadArrived(w, w', n, e.message.id, query)
           case WriteRequest(_) => WriteArrived(w, w', n, e.message.id, CommandOf(e.message.request))
           case SessionRequest(_, _, _) => WriteArrived(w, w', n, e.message.id, CommandOf(e.message.request))
           case _ => false)
  }

  ghost predicate Handles(w: World, w': World, n: Node, e: Envelope, r: Outcome) {
    Rep(w', r.node) && r.node.id == n.id && Advances(w, w', n.id) && MsgsOk(w', r.out) && Recording(w, w', n, e)
  }

  lemma RefinesHandles(w: World, w': World, n: Node, e: Envelope, r: Outcome)
    requires Refines(w, w', n, r)
    ensures Handles(w, w', n, e, r)
  {
  }

  lemma AdvancesChain(w: World, w1: World, w2: World, id: NodeId)
    requires Advances(w, w1, id) && Advances(w1, w2, id)
    ensures Advances(w, w2, id)
  {
    LeTransitive(w, w1, w2);
    CommitsChain(w, w1, w2, id);
    forall t | t in w.h.reigns && w.h.reigns[t].leader != id ensures t in w2.h.reigns && w2.h.reigns[t] == w.h.reigns[t] {
      assert t in w1.h.reigns;
    }
  }

  /** A request recorded first, then handled. */
  lemma HandlesChain(w: World, w1: World, w2: World, n: Node, e: Envelope, r1: Outcome, r2: Outcome)
    requires Handles(w, w1, n, e, r1) && Refines(w1, w2, r1.node, r2)
    ensures Handles(w, w2, n, e, r2.Also(r1.out))
  {
    AdvancesChain(w, w1, w2, n.id);
    MsgsStable(w1, w2, r1.out);
    assert Recording(w, w2, n, e);
  }

  // --------------------------------------------------------- candidates

  lemma StartElectionRep(w: World, n: Node, timeout: Ticks) returns (w': World)
    requires Rep(w, n) && !n.role.Leader?
    ensures Refines(w, w', n, StartElection(n, timeout))
  {
    hide Inv, Le;
    StandKeeps(w, n.id);
    w' := Stand(w, n.id);
  }

  lemma StartPreVoteRep(w: World, n: Node, timeout: Ticks) returns (w': World)
    requires Rep(w, n) && !n.role.Leader?
    ensures Refines(w, w', n, StartPreVote(n, timeout))
  {
    var n1 := n.(role := Candidate({n.id}, 0, timeout, PreVote));
    RetireKeeps(w, n.id);
    var w1 := Retire(w, n.id);
    assert Refines(w, w1, n, Stay(n1));
    if ClusterSize(n1) == 1 || n1.membership.active.HasQuorum(n1.role.votes) {
      w' := StartElectionRep(w1, n1, timeout);
      RefinesChain(w, w1, w', n, Stay(n1), StartElection(n1, timeout));
    } else {
      w' := w1;
    }
  }

  lemma AbortsTrue(w: World, n: Node)
    requires n.id in w.nodes
    ensures MsgsOk(w, AbortForwarded(n))
  {
  }

  /** Another role, in the same world. */
  lemma RoleRep(w: World, n: Node, n': Node)
    requires Rep(w, n) && n' == n.(role := n'.role) && DutyOf(n'.role) == DutyOf(n.role)
    requires Ok(n') && Linked(w, n')
    ensures Rep(w, n')
  {
    hide Inv, Linked, Ok;
  }

  lemma CaughtUpRep(w: World, n: Node)
    requires Rep(w, n) && n.role.Follower?
    ensures var n1 := MaybeApply(n); Rep(w, n1) && n1.id == n.id && n1.role == n.role
  {
    MaybeApplyReplays(n);
    ReplayApplied(n.log[..n.commit]);
    hide Inv;
  }

  lemma StandForElectionValue(n: Node, usePreVote: bool, timeout: Ticks)
    requires n.role.Follower? && Ok(n)
    ensures var n1 := MaybeApply(n);
      StandForElection(n, usePreVote, timeout) ==
        (if usePreVote && n1.opts.preVote then StartPreVote(n1, timeout) else StartElection(n1, timeout)).Also(AbortForwarded(n))
  {
    hide StartPreVote, StartElection, AbortForwarded;
  }

  lemma StandForElectionRep(w: World, n: Node, usePreVote: bool, timeout: Ticks) returns (w': World)
    requires Rep(w, n) && n.role.Follower?
    ensures Refines(w, w', n, StandForElection(n, usePreVote, timeout))
  {
    CaughtUpRep(w, n);
    var n1 := MaybeApply(n);
    if usePreVote && n1.opts.preVote { w' := StartPreVoteRep(w, n1, timeout); }
    else { w' := StartElectionRep(w, n1, timeout); }
    AbortsTrue(w', n);
    StandForElectionValue(n, usePreVote, timeout);
    hide Inv, Le, Rep, Moves, MsgOk, StandForElection, StartPreVote, StartElection, AbortForwarded, MaybeApply;
  }

  /** The votes a candidate has counted were cast for it. */
  lemma VotesAreCast(w: World, n: Node)
    requires Rep(w, n) && n.role.Candidate? && n.role.phase == Election && n.membership.active.HasQuorum(n.role.votes)
    ensures Quorum(w.config, n.role.votes) && AllVoted(w.h, n.role.votes, n.term, n.id)
  {
  }

  /** A log that grew by one plain entry. */
  lemma AppendLocal(config: Membership, n: Node, command: Option<Command>)
    requires CanAppend(n) && Fixed(config, n) && Replayed(n)
    ensures var n1 := AppendEntry(n, command, None); Ok(n1) && Fixed(config, n1) && Replayed(n1)
  {
    ReplayedOnPrefix(n.log, n.log + [Entry(|n.log| + 1, n.term, command, None)], Applied(n.machine), n.commit);
  }

  lemma NewLeaderCanAppend(n: Node)
    requires Ok(n) && n.role.Candidate? && n.term > 0
    ensures CanAppend(NewLeader(n))
  {
  }

  lemma CrownRep(w: World, n: Node) returns (w': World)
    requires Rep(w, n) && n.role.Candidate? && n.role.phase == Election && n.membership.active.HasQuorum(n.role.votes)
    ensures CanAppend(NewLeader(n)) && Rep(w', AppendEntry(NewLeader(n), None, None)) && Moves(w, w', n.id)
  {
    hide Inv, Le, Moves, LeaderOk;
    VotesAreCast(w, n);
    NewLeaderCanAppend(n);
    AppendLocal(w.config, NewLeader(n), None);
    var noop := Entry(|n.log| + 1, n.term, None, None);
    CrownKeeps(w, n.id, n.role.votes, noop);
    w' := Crown(w, n.id, noop);
    CrownMoves(w, n.id, n.role.votes, noop);
    CrownLinked(w, n, noop);
    hide Ok, Linked, Fixed, Replayed, CanAppend;
    assert w'.nodes[n.id] == ViewOf(AppendEntry(NewLeader(n), None, None));
    assert Rep(w', AppendEntry(NewLeader(n), None, None));
  }

  lemma CrownLinked(w: World, n: Node, noop: Entry)
    requires n.id in w.nodes && w.nodes[n.id] == ViewOf(n)
    ensures Linked(Crown(w, n.id, noop), AppendEntry(NewLeader(n), None, None))
  {
  }

  lemma CrownMoves(w: World, id: NodeId, q: set<NodeId>, noop: Entry)
    requires Inv(w) && id in w.nodes && w.nodes[id].duty == Standing
    requires Quorum(w.config, q) && AllVoted(w.h, q, w.nodes[id].term, id) && Le(w, Crown(w, id, noop))
    ensures Moves(w, Crown(w, id, noop), id)
  {
    NoOtherWinner(w, id, q);
    assert NodeOk(w, id);
  }

  lemma WinElectionRep(w: World, n: Node) returns (w': World)
    requires Rep(w, n) && n.role.Candidate? && n.role.phase == Election && n.membership.active.HasQuorum(n.role.votes)
    ensures Refines(w, w', n, WinElection(n)) && WinElection(n).node.role.Leader?
  {
    var n1 := NewLeader(n);
    var w1 := CrownRep(w, n);
    var n2 := AppendEntry(n1, None, None);
    OfferRep(w1, n2);
    var r1 := Propose(n1, None);
    assert Refines(w, w1, n, r1);
    w' := CommitAndApplyRep(w1, r1.node);
    var r2 := CommitAndApply(r1.node).outcome;
    RefinesChain(w, w1, w', n, r1, r2);
    AnnounceRep(w', r2.node);
    RefinesChain(w, w', w', n, Outcome(r2.node, r1.out + r2.out), Announce(r2.node));
  }

  lemma CountVoteRep(w: World, n: Node, e: Envelope)
    requires Rep(w, n) && n.role.Candidate? && MsgOk(w, e) && e.to == n.id
    requires n.role.phase == Election ==> e.term == n.term && e.message == CampaignResponse(true)
    ensures Rep(w, n.(role := n.role.(votes := n.role.votes + {e.from})))
  {
  }

  lemma VoteCountedRep(w: World, n: Node, e: Envelope) returns (w': World)
    requires Rep(w, n) && n.role.Candidate? && n.role.phase == Election
    requires MsgOk(w, e) && e.to == n.id && e.term == n.term && e.message == CampaignResponse(true)
    ensures Refines(w, w', n, VoteCounted(n, e.from))
  {
    CountVoteRep(w, n, e);
    hide Inv, Le, Moves, MessageTrue, WinElection, Linked, Fixed, Replayed;
    var n1 := Counted(n, e.from);
    RefinesSame(w, n, Stay(n1));
    w' := w;
    if n1.membership.active.HasQuorum(n1.role.votes) {
      w' := WinElectionRep(w, n1);
      RefinesChain(w, w, w', n, Stay(n1), WinElection(n1));
    }
  }

  lemma RefinesReply(w: World, n: Node, to: NodeId, message: Message)
    requires Rep(w, n) && MsgOk(w, Send(n, to, message))
    ensures Refines(w, w, n, Reply1(n, to, message))
  {
    LeReflexive(w);
  }

  lemma CandidateAtTermRep(w: World, n: Node, e: Envelope, timeout: Ticks) returns (w': World)
    requires Rep(w, n) && n.role.Candidate? && MsgOk(w, e) && e.to == n.id && e.term == n.term
    requires e.from == n.id ==> e.message.ClientRequest?
    ensures Refines(w, w', n, CandidateAtTerm(n, e, timeout))
  {
    hide Inv, Le, Linked, Fixed, Replayed, Refines, VoteCounted, LoseElection, FollowerAtTerm;
    RefinesStay(w, n);
    w' := w;
    match e.message
    case CampaignResponse(vote) => if vote && n.role.phase == Election { w' := VoteCountedRep(w, n, e); }
    case Heartbeat(_, _, _) => w' := LoseElectionRep(w, n, e, timeout);
    case Append(_, _, _) => w' := LoseElectionRep(w, n, e, timeout);
    case Read(_) => w' := LoseElectionRep(w, n, e, timeout);
    case Campaign(_, _) => RefinesReply(w, n, e.from, CampaignResponse(false));
    case ClientRequest(id, _) => RefinesReply(w, n, e.from, ClientResponse(id, Failed(Abort)));
    case _ => w' := HaltRep(w, n);
  }

  lemma LoseElectionRep(w: World, n: Node, e: Envelope, timeout: Ticks) returns (w': World)
    requires Rep(w, n) && n.role.Candidate? && MsgOk(w, e) && e.term == n.term && LeadersMessage(e.message) && e.from != n.id
    ensures Refines(w, w', n, FollowerAtTerm(LoseElection(n, e.from, timeout), e))
  {
    hide Inv, Le;
    var n1 := LoseElection(n, e.from, timeout);
    RetireKeeps(w, n.id);
    var w1 := Retire(w, n.id);
    assert Refines(w, w1, n, Stay(n1));
    MsgStable(w, w1, e);
    w' := FollowerAtTermRep(w1, n1, e);
    RefinesChain(w, w1, w', n, Stay(n1), FollowerAtTerm(n1, e));
  }

  lemma PreVoteWonRep(w: World, n: Node, timeout: Ticks) returns (w': World)
    requires Rep(w, n) && n.role.Candidate?
    ensures Ok(StartElection(n, timeout).node)
    ensures Refines(w, w', n, AfterPreVote(n, timeout))
  {
    var r := StartElection(n, timeout);
    w' := StartElectionRep(w, n, timeout);
    if r.node.membership.active.HasQuorum(r.node.role.votes) {
      var w1 := w';
      w' := WinElectionRep(w1, r.node);
      RefinesChain(w, w1, w', n, r, WinElection(r.node));
    }
  }

  lemma PreVoteResponseValue(n: Node, e: Envelope, timeout: Ticks)
    requires n.role.Candidate? && Ok(n) && e.message.PreCampaignResponse? && e.from in n.membership.active.AllVoters()
    ensures CandidateStep(n, e, timeout) ==
      if !e.message.vote || n.role.phase != PreVote then Stay(n)
      else
        var n1 := Counted(n, e.from);
        if !n1.membership.active.HasQuorum(n1.role.votes) then Stay(n1) else AfterPreVote(n1, timeout)
  {
    hide StartElection, WinElection;
  }

  lemma PreVoteResponseRep(w: World, n: Node, e: Envelope, timeout: Ticks) returns (w': World)
    requires Rep(w, n) && n.role.Candidate? && MsgOk(w, e) && e.to == n.id && e.message.PreCampaignResponse?
    ensures Refines(w, w', n, CandidateStep(n, e, timeout))
  {
    PreVoteResponseValue(n, e, timeout);
    hide CandidateStep, AfterPreVote, Inv, Le;
    RefinesStay(w, n);
    w' := w;
    if e.message.vote && n.role.phase == PreVote {
      CountVoteRep(w, n, e);
      var n1 := Counted(n, e.from);
      RefinesStay(w, n1);
      if n1.membership.active.HasQuorum(n1.role.votes) {
        w' := PreVoteWonRep(w, n1, timeout);
      }
    }
  }

  lemma CandidateStepValue(n: Node, e: Envelope, timeout: Ticks)
    requires n.role.Candidate? && Ok(n) && !IsPreVote(e.message)
    ensures CandidateStep(n, e, timeout) ==
      if e.term < n.term then Stay(n)
      else if e.term > n.term then
        var r := BecomeLeaderless(n, e.term, timeout);
        FollowerAtTerm(r.node, e).Also(r.out)
      else CandidateAtTerm(n, e, timeout)
  {
    hide FollowerAtTerm, CandidateAtTerm;
  }

  lemma CandidateStepRep(w: World, n: Node, e: Envelope, timeout: Ticks) returns (w': World)
    requires Rep(w, n) && n.role.Candidate? && MsgOk(w, e) && e.to == n.id
    requires e.from == n.id ==> e.message.ClientRequest?
    ensures Refines(w, w', n, CandidateStep(n, e, timeout))
  {
    if e.message.PreCampaignResponse? { w' := PreVoteResponseRep(w, n, e, timeout); }
    else if e.message.PreCampaign? {
      w' := w;
      RefinesSame(w, n, CandidateStep(n, e, timeout));
    } else {
      CandidateStepValue(n, e, timeout);
      hide CandidateStep, FollowerAtTerm, CandidateAtTerm;
      if e.term < n.term {
        w' := w;
        RefinesStay(w, n);
      } else if e.term > n.term {
        w' := LaterTermRep(w, n, e, timeout, BecomeLeaderless(n, e.term, timeout));
      } else {
        w' := CandidateAtTermRep(w, n, e, timeout);
      }
    }
  }

  lemma WaitedRep(w: World, n: Node)
    requires Rep(w, n) && n.role.Candidate?
    ensures Rep(w, n.(role := n.role.(electionDuration := n.role.electionDuration + 1)))
  {
    hide Inv, Le;
    var n1 := n.(role := n.role.(electionDuration := n.role.electionDuration + 1));
    RoleRep(w, n, n1);
  }

  lemma CandidateTickRep(w: World, n: Node, timeout: Ticks) returns (w': World)
    requires Rep(w, n) && n.role.Candidate?
    ensures Refines(w, w', n, CandidateTick(n, timeout))
  {
    hide StartPreVote, StartElection, Rep, Moves, MsgsOk;
    var n1 := n.(role := n.role.(electionDuration := n.role.electionDuration + 1));
    WaitedRep(w, n);
    RefinesStay(w, n1);
    if n1.role.electionDuration < n1.role.electionTimeout { w' := w; }
    else if n1.opts.preVote { w' := StartPreVoteRep(w, n1, timeout); }
    else { w' := StartElectionRep(w, n1, timeout); }
  }

  // ------------------------------------------------------------- leaders

  lemma LeaderFacts(w: World, n: Node)
    requires Rep(w, n) && n.role.Leader?
    ensures n.term in w.h.reigns && w.h.reigns[n.term].leader == n.id && w.h.reigns[n.term].log == n.log
    ensures Ack(w.h, n.id, n.term) == |n.log| && Committed(w.h, n.log, n.commit, n.term) && w.config.voters == w.nodes.Keys
    ensures n.id in w.config.voters && Peers(n) == w.config.voters - {n.id}
  {
    assert NodeOk(w, n.id);
    assert ReignOk(w, n.term);
  }

  lemma NextAppendTrue(w: World, n: Node, peer: NodeId, p: Progress, probe: bool)
    requires Rep(w, n) && n.role.Leader? && ProgressOk(p, |n.log|)
    ensures var r := NextAppend(n, peer, p, probe); r.1.Some? ==> MsgOk(w, r.1.value)
  {
    LeaderFacts(w, n);
    var r := NextAppend(n, peer, p, probe);
    if r.1.Some? {
      var m := r.1.value.message;
      assert m.entries == n.log[m.baseIndex..m.baseIndex + |m.entries|];
    }
  }

  /** A leader that changed nothing but progress, within its bounds. */
  lemma ProgressRep(w: World, n: Node, progress: map<NodeId, Progress>)
    requires Rep(w, n) && n.role.Leader? && progress.Keys == n.role.progress.Keys
    requires forall p :: p in progress ==> ProgressOk(progress[p], |n.log|)
    requires forall p :: p in progress ==>
      progress[p].matchIndex <= Ack(w.h, p, n.term) && progress[p].readSeq <= ReadAck(w.h, p, n.term)
    ensures Rep(w, n.(role := n.role.(progress := progress)))
  {
  }

  lemma OfferRep(w: World, n: Node)
    requires Rep(w, n) && n.role.Leader?
    ensures Refines(w, w, n, Offer(n)) && Offer(n).node.role.Leader? && Offer(n).node.log == n.log
  {
    hide Inv, Le, MessageTrue;
    var r := Offer(n);
    forall p | p in n.role.progress ensures NextAppend(n, p, n.role.progress[p], false).1.Some? ==>
      MsgOk(w, NextAppend(n, p, n.role.progress[p], false).1.value)
    {
      NextAppendTrue(w, n, p, n.role.progress[p], false);
    }
    ProgressRep(w, n, r.node.role.progress);
    RefinesSame(w, n, r);
  }

  lemma SendAppendRep(w: World, n: Node, peer: NodeId, probe: bool)
    requires Rep(w, n) && n.role.Leader?
    ensures var r := SendAppend(n, peer, probe);
      Refines(w, w, n, r) && r.node == n.(role := r.node.role) && r.node.role.Leader?
      && r.node.role.progress.Keys == n.role.progress.Keys
  {
    hide Inv, Le, MessageTrue;
    var r := SendAppend(n, peer, probe);
    if peer in n.role.progress {
      NextAppendTrue(w, n, peer, n.role.progress[peer], probe);
      ProgressRep(w, n, r.node.role.progress);
    }
    RefinesSame(w, n, r);
  }

  lemma AnnounceRep(w: World, n: Node)
    requires Rep(w, n) && n.role.Leader?
    ensures Refines(w, w, n, Announce(n))
  {
    hide Inv, Le;
    LeaderFacts(w, n);
    RefinesSame(w, n, Announce(n));
  }

  lemma PopReadRep(w: World, n: Node)
    requires Rep(w, n) && n.role.Leader? && n.role.pendingReads != []
    requires CanRead(n) && Confirmed(n, n.role.pendingReads[0].serial)
    ensures Rep(w, n.(role := n.role.(pendingReads := n.role.pendingReads[1..])))
    ensures MsgsOk(w, multiset{AnswerRead(n, n.role.pendingReads[0])})
  {
    hide Inv, Le, MessageTrue, CanRead, Confirmed;
    assert n.role.pendingReads[0] in n.role.pendingReads;
    AnswerFresh(w, n, n.role.pendingReads[0]);
    RoleRep(w, n, n.(role := n.role.(pendingReads := n.role.pendingReads[1..])));
  }

  /** Whoever confirmed the read for the leader is a quorum in the history. */
  lemma ConfirmersConfirm(w: World, n: Node, serial: nat)
    requires Rep(w, n) && n.role.Leader? && Confirmed(n, serial) && serial <= n.role.readSeq
    ensures Quorum(w.config, Confirmers(n, serial)) && AllConfirmed(w.h, Confirmers(n, serial), ReadId(n.term, serial))
  {
    LeaderFacts(w, n);
  }

  /** A committed prefix of a represented node's log. */
  lemma CommittedPrefix(w: World, n: Node, i: Index)
    requires Rep(w, n) && 0 < i <= n.commit
    ensures IsCommitted(w.h, n.log[..i])
  {
    assert NodeOk(w, n.id);
    var s: Term :| s <= n.term && CommittedBy(w.h, n.log, n.commit, s);
    AgreeShorter(n.log, w.h.reigns[s].log, n.commit, i);
    assert n.log[..i][..i] == n.log[..i];
    assert CommittedBy(w.h, n.log[..i], |n.log[..i]|, s);
  }

  lemma ReadsInOwnTerm(w: World, n: Node)
    requires Rep(w, n) && n.role.Leader? && CanRead(n)
    ensures TermAt(n.log, n.commit) == n.term && 0 < n.commit && n.machine == Replay(n.log[..n.commit])
  {
    assert NodeOk(w, n.id);
  }

  lemma AnswerFresh(w: World, n: Node, read: PendingRead)
    requires Rep(w, n) && n.role.Leader? && CanRead(n) && Confirmed(n, read.serial)
    requires read.serial <= n.role.readSeq && Asked(w.h, n.term, read)
    ensures MsgOk(w, AnswerRead(n, read))
  {
    var k := ReadId(n.term, read.serial);
    var log := n.log[..n.commit];
    ReadsInOwnTerm(w, n);
    CommittedPrefix(w, n, n.commit);
    ConfirmersConfirm(w, n, read.serial);
    forall s | s in w.h.asked[k].committed ensures w.h.asked[k].committed[s] <= log {
      ReadsAreFresh(w, n.id, k, Confirmers(n, read.serial), s);
    }
    assert Fresh(w, k, log, read.client.id, Machine.Read(n.machine, read.query));
  }

  lemma {:induction false} AnswerReadsRep(w: World, n: Node)
    requires Rep(w, n) && n.role.Leader?
    ensures Refines(w, w, n, AnswerReads(n))
    decreases |n.role.pendingReads|
  {
    RefinesStay(w, n);
    if !(n.role.pendingReads == [] || !CanRead(n) || !Confirmed(n, n.role.pendingReads[0].serial)) {
      var n1 := n.(role := n.role.(pendingReads := n.role.pendingReads[1..]));
      var r1 := Outcome(n1, multiset{AnswerRead(n, n.role.pendingReads[0])});
      PopReadRep(w, n);
      RefinesSame(w, n, r1);
      AnswerReadsRep(w, n1);
      hide Refines, Rep;
      RefinesChain(w, w, w, n, r1, AnswerReads(n1));
    }
  }

  lemma ReplyExecuted(w: World, n: Node, i: Index)
    requires Rep(w, n) && n.role.Leader? && i == Applied(n.machine) + 1 <= n.commit && i in n.role.writes
    ensures ResponseTrue(w, n.role.writes[i].id, WriteResult(Apply(n.machine, n.log[i - 1]).1))
  {
    var k := Slot(n.term, i);
    var log := n.log[..i];
    CommittedPrefix(w, n, i);
    assert log[..i - 1] == n.log[..i - 1];
    assert Wrote(w.h, n.term, i, n.role.writes[i].id);
    WroteAt(w, k);
    LeaderFacts(w, n);
    WritesOwnTerm(w, n, i);
    assert Executed(w, k, log, n.role.writes[i].id, Apply(n.machine, n.log[i - 1]).1);
  }

  /** A write waits at an entry of the leader's own term. */
  lemma WritesOwnTerm(w: World, n: Node, i: Index)
    requires Rep(w, n) && n.role.Leader? && i in n.role.writes
    ensures 1 <= i <= |n.log| && n.log[i - 1].term == n.term
  {
    assert Wrote(w.h, n.term, i, n.role.writes[i].id);
    WroteAt(w, Slot(n.term, i));
    LeaderFacts(w, n);
    ReignAt(w, n.term);
  }

  lemma ApplyNextTrue(w: World, n: Node)
    requires Rep(w, n) && n.role.Leader? && Applied(n.machine) < n.commit
    ensures MsgsOk(w, ApplyNext(n).out)
  {
    hide Inv, Le, Linked, Moves, HistoryLe;
    if Applied(n.machine) + 1 in n.role.writes { ReplyExecuted(w, n, Applied(n.machine) + 1); }
    hide Inv, Le, ResponseTrue;
  }

  lemma ApplyNextNode(config: Membership, n: Node)
    requires n.role.Leader? && Ok(n) && Fixed(config, n) && Replayed(n) && Applied(n.machine) < n.commit
    ensures var n1 := ApplyNext(n).node;
      Fixed(config, n1) && Replayed(n1)
      && n1 == n.(machine := n1.machine, role := n1.role)
      && n1.role == n.role.(writes := n1.role.writes, membershipWrites := n1.role.membershipWrites)
      && (forall i :: i in n1.role.writes ==> i in n.role.writes && n1.role.writes[i] == n.role.writes[i])
  {
    ReplayNext(n.log, Applied(n.machine));
    ApplyAdvances(n.machine, n.log[Applied(n.machine)]);
  }

  lemma ApplyNextRep(w: World, n: Node)
    requires Rep(w, n) && n.role.Leader? && Applied(n.machine) < n.commit
    ensures var r := ApplyNext(n);
      Refines(w, w, n, r) && r.node.log == n.log && r.node.commit == n.commit && r.node.term == n.term
  {
    ApplyNextTrue(w, n);
    ApplyNextNode(w.config, n);
    hide Inv, Le, ResponseTrue, MsgsOk, ApplyNext, Fixed, Replayed;
    var r := ApplyNext(n);
    assert Linked(w, r.node);
    assert Rep(w, r.node);
    RefinesSame(w, n, r);
  }

  /** Applying changes the state machine and answers writes, nothing else. */
  lemma {:induction false} ApplyAllRep(w: World, n: Node)
    requires Rep(w, n) && n.role.Leader?
    ensures var r := ApplyAll(n); Refines(w, w, n, r) && r.node.log == n.log && r.node.commit == n.commit && r.node.term == n.term
    decreases n.commit - Applied(n.machine)
  {
    RefinesStay(w, n);
    if Applied(n.machine) < n.commit {
      var r := ApplyNext(n);
      ApplyNextRep(w, n);
      ApplyAllRep(w, r.node);
      hide Refines, Rep;
      RefinesChain(w, w, w, n, r, ApplyAll(r.node));
    }
  }

  lemma NoConfigurations(log: seq<Entry>, lo: Index, hi: Index)
    requires NoChanges(log) && lo <= hi <= |log|
    ensures Configurations(log, lo, hi) == []
    decreases hi - lo
  {
    if lo < hi { NoConfigurations(log, lo + 1, hi); }
  }

  /** The commit rule: own term, held by a quorum. */
  lemma DecideRep(w: World, n: Node, i: Index) returns (w': World)
    requires Rep(w, n) && n.role.Leader? && n.commit < i <= |n.log| && Committable(n, i)
    ensures Rep(w', n.(commit := i)) && Moves(w, w', n.id)
  {
    hide Inv, Le, Quorum, AllAcked, Committable, CanDecide, Linked, Moves, Decide, Holders;
    LeaderFacts(w, n);
    HoldersAcked(w, n, i);
    DecideKeeps(w, n.id, i, Holders(n, i));
    w' := Decide(w, n.id, i);
    DecideMoves(w, n, i);
  }

  lemma DecideMoves(w: World, n: Node, i: Index)
    requires n.role.Leader? && n.id in w.nodes && w.nodes[n.id] == ViewOf(n) && Linked(w, n)
    requires n.term in w.h.reigns && w.h.reigns[n.term].leader == n.id && Le(w, Decide(w, n.id, i))
    requires w.h.reigns[n.term].log == n.log && n.commit <= i <= |n.log|
    ensures var w' := Decide(w, n.id, i);
      Linked(w', n.(commit := i)) && Moves(w, w', n.id) && w'.config == w.config
      && n.id in w'.nodes && w'.nodes[n.id] == ViewOf(n.(commit := i))
  {
    hide Le;
  }

  lemma HoldersAcked(w: World, n: Node, i: Index)
    requires Rep(w, n) && n.role.Leader? && n.commit < i <= |n.log| && Committable(n, i)
    ensures CanDecide(w, n.id, i, Holders(n, i))
  {
    LeaderFacts(w, n);
    hide Inv, Le;
    assert AllAcked(w.h, Holders(n, i), n.term, i);
  }

  lemma CommitAndApplyRep(w: World, n: Node) returns (w': World)
    requires Rep(w, n) && n.role.Leader?
    ensures Refines(w, w', n, CommitAndApply(n).outcome) && !CommitAndApply(n).stepDown
    ensures CommitAndApply(n).outcome.node.log == n.log
  {
    var target := CommitTarget(n, |n.log|);
    RefinesStay(w, n);
    if target <= n.commit { w' := w; }
    else {
      w' := DecideRep(w, n, target);
      var n1 := n.(commit := target);
      var r1 := ApplyAll(n1);
      ApplyAllRep(w', n1);
      RefinesChain(w, w', w', n, Stay(n1), r1);
      NoConfigurations(n.log, Applied(n.machine), target);
      AnswerReadsRep(w', r1.node);
      AnswerReadsFrame(r1.node);
      RefinesChain(w, w', w', n, r1, AnswerReads(r1.node));
      CommitValue(n, target, r1);
    }
  }

  lemma CommitValue(n: Node, target: Index, r1: Outcome)
    requires n.role.Leader? && Ok(n) && target == CommitTarget(n, |n.log|) && n.commit < target
    requires r1 == ApplyAll(n.(commit := target)) && Configurations(n.log, Applied(n.machine), target) == []
    ensures var r3 := if TermAt(n.log, n.commit) != n.term then AnswerReads(r1.node) else Stay(r1.node);
      CommitAndApply(n) == CommitOutcome(Outcome(r3.node, r1.out + r3.out), false)
  {
    assert r1.out + multiset{} == r1.out;
  }

  lemma OnMatchRep(w: World, n: Node, peer: NodeId, i: Index) returns (w': World)
    requires Rep(w, n) && n.role.Leader? && peer in n.role.progress && i <= |n.log| && i <= Ack(w.h, peer, n.term)
    ensures var r := OnMatch(n, peer, i);
      Refines(w, w', n, r.outcome) && !r.stepDown && r.outcome.node.log == n.log && r.outcome.node.role.Leader?
  {
    hide Inv, Le, MessageTrue;
    RefinesStay(w, n);
    if i <= n.role.progress[peer].matchIndex { w' := w; }
    else {
      var progress := n.role.progress[peer := n.role.progress[peer].Advance(i)];
      ProgressRep(w, n, progress);
      w' := CommitAndApplyRep(w, n.(role := n.role.(progress := progress)));
    }
  }

  lemma OnReadAckRep(w: World, n: Node, peer: NodeId, serial: nat)
    requires Rep(w, n) && n.role.Leader? && peer in n.role.progress && serial <= ReadAck(w.h, peer, n.term)
    ensures Refines(w, w, n, OnReadAck(n, peer, serial))
  {
    hide Inv, Le, MessageTrue, Moves, Fixed, Replayed, AnswerReads;
    RefinesStay(w, n);
    if serial > n.role.progress[peer].readSeq {
      var progress := n.role.progress[peer := n.role.progress[peer].AdvanceRead(serial)];
      ProgressRep(w, n, progress);
      AnswerReadsRep(w, n.(role := n.role.(progress := progress)));
    }
  }

  lemma NotePeerRep(w: World, n: Node, from: NodeId)
    requires Rep(w, n) && n.role.Leader?
    ensures var n1 := NotePeer(n, from); Rep(w, n1) && n1.role.Leader? && n1 == n.(role := n.role.(peerSeen := n1.role.peerSeen))
  {
  }

  /** A response reports what its sender acknowledged to this leader, so it is in range. */
  lemma AckInRange(w: World, n: Node, f: NodeId)
    requires Rep(w, n) && n.role.Leader?
    ensures Ack(w.h, f, n.term) <= |n.log| && ReadAck(w.h, f, n.term) <= n.role.readSeq
  {
    LeaderFacts(w, n);
    if At(f, n.term) in w.h.acks { AckAt(w, At(f, n.term)); }
    if At(f, n.term) in w.h.readAcks { ReadAckAt(w, At(f, n.term)); }
  }

  lemma ProbeRep(w: World, n: Node, peer: NodeId, next: Index)
    requires Rep(w, n) && n.role.Leader? && peer in n.role.progress && next <= |n.log|
    ensures Refines(w, w, n, Probe(n, peer, next))
  {
    var progress := n.role.progress[peer := n.role.progress[peer].Regress(next)];
    ProgressRep(w, n, progress);
    SendAppendRep(w, n.(role := n.role.(progress := progress)), peer, true);
  }

  lemma HeartbeatResponseValue(n: Node, e: Envelope, n1: Node, r2: Outcome, r3: Outcome)
    requires n.role.Leader? && Ok(n) && e.message.HeartbeatResponse? && e.from in n.role.progress && n1 == NotePeer(n, e.from)
    requires e.message.matchIndex <= |n1.log| && e.message.readSeq <= n1.role.readSeq
    requires r2 == OnReadAck(n1, e.from, e.message.readSeq)
    requires r3 ==
      if e.message.matchIndex != 0 then Stay(r2.node)
      else Probe(r2.node, e.from, |n1.log|)
    ensures r3.node.role.Leader? && Ok(r3.node) && e.from in r3.node.role.progress && r3.node.log == n.log
    ensures var r4 := OnMatch(r3.node, e.from, e.message.matchIndex);
      OnHeartbeatResponse(n, e) == CommitOutcome(r4.outcome.Also(r2.out + r3.out), r4.stepDown)
  {
    hide OnMatch, OnReadAck, Probe;
  }

  lemma OnHeartbeatResponseRep(w: World, n: Node, e: Envelope) returns (w': World)
    requires Rep(w, n) && n.role.Leader? && MsgOk(w, e) && e.term == n.term && e.message.HeartbeatResponse?
    ensures var r := OnHeartbeatResponse(n, e);
      Refines(w, w', n, r.outcome) && !r.stepDown && !r.outcome.node.role.Halted?
  {
    hide Inv, Linked, Moves, Ok;
    var m := e.message;
    w' := w;
    if e.from !in n.role.progress {
      RefinesStay(w, n);
    } else {
      NotePeerRep(w, n, e.from);
      AckInRange(w, n, e.from);
      var n1 := NotePeer(n, e.from);
      var r2 := OnReadAck(n1, e.from, m.readSeq);
      OnReadAckRep(w, n1, e.from, m.readSeq);
      OnReadAckFrame(n1, e.from, m.readSeq);
      var r3 :=
        if m.matchIndex != 0 then Stay(r2.node)
        else Probe(r2.node, e.from, |n1.log|);
      RefinesElsewhere(w, w, n, n1, r2);
      ProbeIfBehindRep(w, r2.node, e.from, m.matchIndex, |n1.log|, r3);
      w' := OnMatchRep(w, r3.node, e.from, m.matchIndex);
      HeartbeatResponseValue(n, e, n1, r2, r3);
      hide Refines, Rep, OnHeartbeatResponse, OnMatch, Probe;
      RefinesChain(w, w, w, n, r2, r3);
      RefinesChain(w, w, w', n, Outcome(r3.node, r2.out + r3.out), OnMatch(r3.node, e.from, m.matchIndex).outcome);
    }
  }

  /** The moves of a step depend on the node's id only. */
  lemma RefinesElsewhere(w: World, w': World, n: Node, n1: Node, r: Outcome)
    requires Refines(w, w', n1, r) && n.id == n1.id
    ensures Refines(w, w', n, r)
  {
  }

  lemma ProbeIfBehindRep(w: World, n: Node, peer: NodeId, i: Index, last: Index, r: Outcome)
    requires Rep(w, n) && n.role.Leader? && peer in n.role.progress && last == |n.log|
    requires r == if i != 0 then Stay(n) else Probe(n, peer, last)
    ensures Refines(w, w, n, r) && r.node.role.Leader? && peer in r.node.role.progress && r.node.log == n.log && r.node.term == n.term
  {
    if i == 0 {
      ProbeRep(w, n, peer, last);
    } else { RefinesStay(w, n); }
  }

  lemma OnReadAckFrame(n: Node, peer: NodeId, serial: nat)
    requires n.role.Leader? && Ok(n) && peer in n.role.progress
    ensures var r := OnReadAck(n, peer, serial).node; r.role.Leader? && r == n.(role := r.role) && r.role.progress.Keys == n.role.progress.Keys
  {
    if serial > n.role.progress[peer].readSeq {
      AnswerReadsFrame(SetProgress(n, peer, n.role.progress[peer].AdvanceRead(serial)));
    }
  }

  lemma OnAppendResponseRep(w: World, n: Node, e: Envelope) returns (w': World)
    requires Rep(w, n) && n.role.Leader? && MsgOk(w, e) && e.term == n.term && e.message.AppendResponse?
    ensures var r := OnAppendResponse(n, e);
      Refines(w, w', n, r.outcome) && !r.stepDown && !r.outcome.node.role.Halted?
  {
    hide Inv, Le, Linked, Moves, HistoryLe;
    var m := e.message;
    RefinesStay(w, n);
    w' := w;
    if e.from in n.role.progress {
      NotePeerRep(w, n, e.from);
      AckInRange(w, n, e.from);
      LeaderFacts(w, n);
      var n1 := NotePeer(n, e.from);
      RefinesStay(w, n1);
      if m.matchIndex > 0 {
        var r2 := OnMatch(n1, e.from, m.matchIndex);
        w' := OnMatchRep(w, n1, e.from, m.matchIndex);
        SendAppendRep(w', r2.outcome.node, e.from, false);
        RefinesChain(w, w', w', n, r2.outcome, SendAppend(r2.outcome.node, e.from, false));
      } else {
        var p := n1.role.progress[e.from];
        if !(m.rejectIndex <= p.matchIndex || !p.Regresses(m.rejectIndex)) { ProbeRep(w, n1, e.from, m.rejectIndex); }
      }
    }
  }

  lemma ExtendRep(w: World, n: Node, id: RequestId, command: Command) returns (w': World)
    requires Rep(w, n) && n.role.Leader?
    ensures var n1 := AppendEntry(n, Some(command), None);
      Rep(w', n1) && Advances(w, w', n.id) && WriteArrived(w, w', n, id, command)
    ensures Wrote(w'.h, n.term, |n.log| + 1, id)
  {
    hide Inv, Le, Advances, Linked, Fixed, Replayed, WriteArrived, HistoryLe, Extend, Wrote;
    var e := Entry(|n.log| + 1, n.term, Some(command), None);
    LeaderFacts(w, n);
    AppendLocal(w.config, n, Some(command));
    ExtendKeeps(w, n.id, e, Some(Written(id, command)));
    w' := Extend(w, n.id, e, Some(Written(id, command)));
    ExtendLinked(w, n, e, Some(Written(id, command)));
    ExtendArrives(w, n, e, Written(id, command));
    hide Ok, CanAppend, LeaderOk, ViewOf;
  }

  lemma ExtendArrives(w: World, n: Node, e: Entry, note: Written)
    requires Rep(w, n) && n.role.Leader? && n.term in w.h.reigns && Le(w, Extend(w, n.id, e, Some(note)))
    requires w.h.reigns[n.term].leader == n.id && w.h.reigns[n.term].log == n.log
    ensures var w' := Extend(w, n.id, e, Some(note));
      Advances(w, w', n.id) && WriteArrived(w, w', n, note.id, note.command) && Wrote(w'.h, n.term, |n.log| + 1, note.id)
      && w'.config == w.config && n.id in w'.nodes && w'.nodes[n.id] == ViewOf(n.(log := n.log + [e]))
  {
    hide Inv, Le, Linked, Moves, HistoryLe;
    var k := Slot(n.term, |n.log| + 1);
    if k in w.h.wrote { WroteAt(w, k); }
    hide Inv;
  }

  lemma ExtendLinked(w: World, n: Node, e: Entry, note: Option<Written>)
    requires Rep(w, n) && n.role.Leader? && n.term in w.h.reigns && Le(w, Extend(w, n.id, e, note))
    ensures Linked(Extend(w, n.id, e, note), n.(log := n.log + [e]))
  {
    hide Inv;
  }

  lemma CommitIfAloneRep(w: World, n: Node, out: multiset<Envelope>) returns (w': World)
    requires Rep(w, n) && n.role.Leader? && MsgsOk(w, out)
    ensures var c := CommitIfAlone(Outcome(n, out)); Refines(w, w', n, c.outcome) && !c.stepDown
  {
    RefinesSame(w, n, Outcome(n, out));
    w' := w;
    if ClusterSize(n) == 1 {
      w' := CommitAndApplyRep(w, n);
      RefinesChain(w, w, w', n, Outcome(n, out), CommitAndApply(n).outcome);
    }
  }

  /** A request of the entry just written waits at its index. */
  lemma WaitRep(w: World, n: Node, client: Client)
    requires Rep(w, n) && n.role.Leader? && Applied(n.machine) < |n.log| && n.log[|n.log| - 1].membership.None?
    requires Wrote(w.h, n.term, |n.log|, client.id)
    ensures Rep(w, n.(role := n.role.(writes := n.role.writes[|n.log| := client])))
  {
    hide Inv, Le;
  }

  lemma OnWriteRep(w: World, n: Node, client: Client, request: Request, e: Envelope) returns (w': World)
    requires Rep(w, n) && n.role.Leader? && (request.WriteRequest? || request.SessionRequest?)
    requires e.term == n.term && e.message == ClientRequest(client.id, request)
    ensures var r := OnWrite(n, client, request); Handles(w, w', n, e, r.outcome) && !r.stepDown
  {
    hide Inv, Le, Linked, Fixed, Replayed, Advances, MsgOk, CommitIfAlone, WriteArrived, HistoryLe, Wrote;
    var command := CommandOf(request);
    var w1 := ExtendRep(w, n, client.id, command);
    var r := Propose(n, Some(command));
    var n2 := Waiting(r.node, client);
    ProposedRep(w1, n, client, command);
    OnWriteValue(n, client, request);
    hide OnWrite, Propose, Rep, Waiting, Ok, CanAppend, LeaderOk;
    assert Handles(w, w1, n, e, Stay(n2));
    hide Handles;
    w' := CommitIfAloneRep(w1, n2, r.out);
    HandlesChain(w, w1, w', n, e, Stay(n2), CommitIfAlone(Outcome(n2, r.out)).outcome);
  }

  function Waiting(n: Node, client: Client): Node
    requires n.role.Leader?
  {
    n.(role := n.role.(writes := n.role.writes[|n.log| := client]))
  }

  /** The entry is offered to the peers, and its request waits for it. */
  lemma ProposedRep(w: World, n: Node, client: Client, command: Command)
    requires CanAppend(n) && Rep(w, AppendEntry(n, Some(command), None))
    requires Wrote(w.h, n.term, |n.log| + 1, client.id) && Applied(n.machine) <= |n.log|
    ensures var r := Propose(n, Some(command)); r.node.id == n.id && Rep(w, Waiting(r.node, client)) && MsgsOk(w, r.out)
  {
    var n1 := AppendEntry(n, Some(command), None);
    OfferRep(w, n1);
    hide Inv, Le;
    WaitRep(w, Offer(n1).node, client);
  }

  lemma OnWriteValue(n: Node, client: Client, request: Request)
    requires n.role.Leader? && Ok(n) && (request.WriteRequest? || request.SessionRequest?)
    ensures var r := Propose(n, Some(CommandOf(request)));
      var n2 := Waiting(r.node, client);
      n2.role.Leader? && Ok(n2) && OnWrite(n, client, request) == CommitIfAlone(Outcome(n2, r.out))
  {
    hide CommitAndApply;
  }

  lemma OnReadRequestRep(w: World, n: Node, client: Client, query: ReadCommand, e: Envelope) returns (w': World)
    requires Rep(w, n) && n.role.Leader? && e.term == n.term && e.message == ClientRequest(client.id, ReadRequest(query))
    ensures var r := OnRequest(n, client, ReadRequest(query)); Handles(w, w', n, e, r.outcome) && !r.stepDown
  {
    var n1 := Queued(n, client, query);
    w' := AskedRep(w, n, client, query);
    var ask := Outcome(n1, Broadcast(n1, Message.Read(n1.role.readSeq)));
    AskTrue(w', n1);
    assert Handles(w, w', n, e, ask);
    var r := if ClusterSize(n1) == 1 then AnswerReads(n1) else Stay(n1);
    AnswerReadsRep(w', n1);
    RefinesStay(w', n1);
    hide Refines, Rep, Handles;
    HandlesChain(w, w', w', n, e, ask, r);
  }

  lemma AskTrue(w: World, n: Node)
    requires Rep(w, n) && n.role.Leader?
    ensures MsgsOk(w, Broadcast(n, Message.Read(n.role.readSeq)))
  {
    LeaderFacts(w, n);
  }

  lemma AskedRep(w: World, n: Node, client: Client, query: ReadCommand) returns (w': World)
    requires Rep(w, n) && n.role.Leader?
    ensures Rep(w', Queued(n, client, query)) && Advances(w, w', n.id) && ReadArrived(w, w', n, client.id, query)
  {
    hide Inv, Le, Linked, HistoryLe;
    LeaderFacts(w, n);
    AskKeeps(w, n.id, client.id, query);
    w' := Ask(w, n.id, client.id, query);
    AskLinked(w, n, client, query);
    QueuedOk(w.config, n, client, query);
    AskArrives(w, n, client.id, query);
    hide Inv, Le, Advances, Ok, Linked, ReadArrived, Fixed, Replayed, Snapshot;
    assert w'.nodes[n.id] == ViewOf(Queued(n, client, query));
  }

  lemma AskArrives(w: World, n: Node, id: RequestId, query: ReadCommand)
    requires n.role.Leader? && n.id in w.nodes && n.term in w.h.reigns && w.nodes[n.id] == ViewOf(n) && Linked(w, n)
    requires w.h.reigns[n.term].leader == n.id && Le(w, Ask(w, n.id, id, query))
    requires ReadId(n.term, n.role.readSeq + 1) !in w.h.asked && n.commit <= |n.log|
    ensures ReadArrived(w, Ask(w, n.id, id, query), n, id, query) && Advances(w, Ask(w, n.id, id, query), n.id)
  {
  }

  lemma AskLinked(w: World, n: Node, client: Client, query: ReadCommand)
    requires n.role.Leader? && n.id in w.nodes && w.nodes[n.id] == ViewOf(n) && Linked(w, n)
    requires n.term in w.h.reigns && w.h.reigns[n.term].leader == n.id && HistoryLe(w.h, Ask(w, n.id, client.id, query).h)
    ensures Linked(Ask(w, n.id, client.id, query), Queued(n, client, query))
  {
  }

  lemma QueuedOk(config: Membership, n: Node, client: Client, query: ReadCommand)
    requires n.role.Leader? && Ok(n) && Fixed(config, n) && Replayed(n)
    ensures var n1 := Queued(n, client, query); Ok(n1) && Fixed(config, n1) && Replayed(n1)
  {
    assert ReadsOrdered(Queued(n, client, query).role.pendingReads, n.role.readSeq + 1);
  }

  lemma OnRequestRep(w: World, n: Node, client: Client, request: Request, e: Envelope) returns (w': World)
    requires Rep(w, n) && n.role.Leader? && !request.ChangeMembership?
    requires e.term == n.term && e.message == ClientRequest(client.id, request)
    ensures var r := OnRequest(n, client, request); Handles(w, w', n, e, r.outcome) && !r.stepDown
  {
    hide Inv, Le, Linked;
    match request
    case ReadRequest(query) => w' := OnReadRequestRep(w, n, client, query, e);
    case StatusRequest =>
      w' := w;
      RefinesSame(w, n, OnRequest(n, client, request).outcome);
    case _ => w' := OnWriteRep(w, n, client, request, e);
  }

  lemma ReadResponseRep(w: World, n: Node, e: Envelope)
    requires Rep(w, n) && n.role.Leader? && MsgOk(w, e) && e.term == n.term && e.message.ReadResponse?
    ensures var r := LeaderAtTerm(n, e); Refines(w, w, n, r.outcome) && !r.stepDown
  {
    hide Inv, Le, Linked, Moves, HistoryLe, Ok, OnReadAck, NotePeer, Fixed, Replayed;
    if e.from in n.role.progress {
      NotePeerRep(w, n, e.from);
      OnReadAckRep(w, NotePeer(n, e.from), e.from, e.message.readSeq);
    } else { RefinesStay(w, n); }
  }

  lemma LeaderAtTermValue(n: Node, e: Envelope)
    requires n.role.Leader? && Ok(n)
    ensures var r, m := LeaderAtTerm(n, e), e.message;
      && (m.HeartbeatResponse? ==> r == OnHeartbeatResponse(n, e))
      && (m.AppendResponse? ==> r == OnAppendResponse(n, e))
      && (m.ClientRequest? ==> r == OnRequest(n, Client(e.from, m.id), m.request))
      && (m.ClientResponse? ==> r == CommitOutcome(Stay(Halt(n)), false))
  {
    hide OnHeartbeatResponse, OnAppendResponse, OnReadAck, OnRequest;
  }

  lemma QuietMessageRep(w: World, n: Node, e: Envelope)
    requires Rep(w, n) && n.role.Leader?
    requires var m := e.message; !(m.HeartbeatResponse? || m.AppendResponse? || m.ReadResponse? || m.ClientRequest? || m.ClientResponse?)
    ensures var r := LeaderAtTerm(n, e); Refines(w, w, n, r.outcome) && !r.stepDown
  {
    hide Inv, Le, Linked;
    RefinesSame(w, n, LeaderAtTerm(n, e).outcome);
  }

  lemma LeaderAtTermRep(w: World, n: Node, e: Envelope) returns (w': World)
    requires Rep(w, n) && n.role.Leader? && MsgOk(w, e) && e.term == n.term
    ensures var r := LeaderAtTerm(n, e); Handles(w, w', n, e, r.outcome) && !r.stepDown
  {
    hide Inv, Le, Linked, LeaderAtTerm, OnHeartbeatResponse, OnAppendResponse, OnRequest, Moves;
    LeaderAtTermValue(n, e);
    var r := LeaderAtTerm(n, e);
    w' := w;
    match e.message
    case ClientRequest(id, request) => w' := OnRequestRep(w, n, Client(e.from, id), request, e);
    case HeartbeatResponse(_, _) =>
      w' := OnHeartbeatResponseRep(w, n, e);
      RefinesHandles(w, w', n, e, r.outcome);
    case AppendResponse(_, _) =>
      w' := OnAppendResponseRep(w, n, e);
      RefinesHandles(w, w', n, e, r.outcome);
    case ClientResponse(_, _) =>
      w' := HaltRep(w, n);
      RefinesHandles(w, w', n, e, r.outcome);
    case ReadResponse(_) =>
      ReadResponseRep(w, n, e);
      RefinesHandles(w, w, n, e, r.outcome);
    case _ =>
      QuietMessageRep(w, n, e);
      RefinesHandles(w, w, n, e, r.outcome);
  }

  lemma HaltRep(w: World, n: Node) returns (w': World)
    requires Rep(w, n)
    ensures Refines(w, w', n, Stay(Halt(n)))
  {
    RetireKeeps(w, n.id);
    w' := Retire(w, n.id);
  }

  lemma AbortTableResponds(w: World, n: Node, table: map<Index, Client>, lo: Index, hi: Index)
    requires n.id in w.nodes && lo <= hi
    ensures MsgsOk(w, AbortTable(n, table, lo, hi))
    decreases hi - lo
  {
    if lo < hi { AbortTableResponds(w, n, table, lo + 1, hi); }
  }

  lemma AbortReadsRespond(w: World, n: Node, pendingReads: seq<PendingRead>)
    requires n.id in w.nodes
    ensures MsgsOk(w, AbortReads(n, pendingReads))
    decreases |pendingReads|
  {
    if pendingReads != [] { AbortReadsRespond(w, n, pendingReads[1..]); }
  }

  lemma StepDownResponds(w: World, n: Node, term: Term, timeout: Ticks)
    requires n.role.Leader? && n.id in w.nodes
    ensures MsgsOk(w, StepDown(n, term, timeout).out)
  {
    var n1 := if term > n.term then n.(term := term, vote := None) else n;
    AbortTableResponds(w, n1, n.role.writes, 0, |n.log| + 1);
    AbortTableResponds(w, n1, n.role.membershipWrites, 0, |n.log| + 1);
    AbortReadsRespond(w, n1, n.role.pendingReads);
  }

  lemma StepDownRep(w: World, n: Node, timeout: Ticks) returns (w': World)
    requires Rep(w, n) && n.role.Leader?
    ensures Refines(w, w', n, StepDown(n, n.term, timeout))
  {
    hide Inv, Le, MessageTrue;
    RetireKeeps(w, n.id);
    w' := Retire(w, n.id);
    StepDownResponds(w', n, n.term, timeout);
  }

  lemma LeaderStepValue(n: Node, e: Envelope, timeout: Ticks)
    requires n.role.Leader? && Ok(n) && !IsPreVote(e.message) && e.term >= n.term
    ensures LeaderStep(n, e, timeout) ==
      if e.term > n.term then
        var r := StepDown(n, e.term, timeout);
        FollowerAtTerm(r.node, e).Also(r.out)
      else
        var r := LeaderAtTerm(n, e);
        if r.stepDown then StepDown(r.outcome.node, r.outcome.node.term, timeout).Also(r.outcome.out) else r.outcome
  {
    hide FollowerAtTerm, LeaderAtTerm, AbortTable, AbortReads;
  }

  lemma LeaderStepRep(w: World, n: Node, e: Envelope, timeout: Ticks) returns (w': World)
    requires Rep(w, n) && n.role.Leader? && MsgOk(w, e) && (e.from == n.id ==> e.message.ClientRequest?)
    ensures Handles(w, w', n, e, LeaderStep(n, e, timeout))
  {
    if IsPreVote(e.message) || e.term < n.term {
      w' := w;
      RefinesSame(w, n, LeaderStep(n, e, timeout));
    } else {
      LeaderStepValue(n, e, timeout);
      hide LeaderStep, FollowerAtTerm, LeaderAtTerm, AbortTable, AbortReads;
      if e.term > n.term {
        StepDownResponds(w, n, e.term, timeout);
        w' := LaterTermRep(w, n, e, timeout, StepDown(n, e.term, timeout));
      } else {
        w' := LeaderAtTermRep(w, n, e);
      }
    }
  }

  /** A leader one tick later. */
  function Ticked(n: Node): Node
    requires n.role.Leader?
  {
    n.(role := n.role.(
        peerSeen := map p | p in n.role.peerSeen :: Min(n.role.peerSeen[p] + 1, MAX_TICKS),
        sinceHeartbeat := n.role.sinceHeartbeat + 1))
  }

  function MaybeAnnounce(n: Node): (r: Outcome)
    requires n.role.Leader? && Ok(n)
    ensures r.node.role.Leader? && Ok(r.node)
  {
    if n.role.sinceHeartbeat >= n.opts.heartbeatInterval then Announce(n) else Stay(n)
  }

  lemma TickedRep(w: World, n: Node)
    requires Rep(w, n) && n.role.Leader?
    ensures Rep(w, Ticked(n)) && Refines(w, w, n, MaybeAnnounce(Ticked(n)))
  {
    hide Inv, Le;
    RoleRep(w, n, Ticked(n));
    AnnounceRep(w, Ticked(n));
    RefinesStay(w, Ticked(n));
  }

  lemma LeaderTickValue(n: Node, timeout: Ticks)
    requires n.role.Leader? && Ok(n)
    ensures Ok(Ticked(n))
    ensures var r := MaybeAnnounce(Ticked(n));
      LeaderTick(n, timeout) ==
        if r.node.opts.checkQuorum && ClusterSize(r.node) > 1 && !r.node.membership.active.HasQuorum(Active(r.node)) then
          StepDown(r.node, r.node.term, timeout).Also(r.out)
        else r
  {
    TickedOk(n);
    hide Ok, StepDown, Announce, Active, MembershipEntry.HasQuorum;
  }

  lemma TickedOk(n: Node)
    requires n.role.Leader? && Ok(n)
    ensures Ok(Ticked(n))
  {
  }

  lemma LeaderTickRep(w: World, n: Node, timeout: Ticks) returns (w': World)
    requires Rep(w, n) && n.role.Leader?
    ensures Refines(w, w', n, LeaderTick(n, timeout))
  {
    hide Inv, Le, Linked, LeaderTick, Announce, StepDown, Moves;
    LeaderTickValue(n, timeout);
    TickedRep(w, n);
    var r := MaybeAnnounce(Ticked(n));
    w' := w;
    if r.node.opts.checkQuorum && ClusterSize(r.node) > 1 && !r.node.membership.active.HasQuorum(Active(r.node)) {
      w' := StepDownRep(w, r.node, timeout);
      RefinesChain(w, w, w', n, r, StepDown(r.node, r.node.term, timeout));
    }
  }

  // -------------------------------------------------------- entry points

  lemma KnownSenders(w: World, n: Node, e: Envelope)
    requires Rep(w, n) && MsgOk(w, e)
    ensures KnownSender(n, e.from)
  {
  }

  /** Handling any true message is a composition of protocol moves. */
  lemma StepRefines(w: World, n: Node, e: Envelope, timeout: Ticks) returns (w': World)
    requires Rep(w, n) && MsgOk(w, e) && e.to == n.id && (e.from == n.id ==> e.message.ClientRequest?)
    ensures Handles(w, w', n, e, Step(n, e, timeout))
  {
    KnownSenders(w, n, e);
    hide LeaderStep, CandidateStep, FollowerStep;
    match n.role
    case Follower(_, _, _, _) =>
      w' := FollowerStepRep(w, n, e, timeout);
      RefinesHandles(w, w', n, e, Step(n, e, timeout));
    case Candidate(_, _, _, _) =>
      w' := CandidateStepRep(w, n, e, timeout);
      RefinesHandles(w, w', n, e, Step(n, e, timeout));
    case Leader(_, _, _, _, _, _, _) => w' := LeaderStepRep(w, n, e, timeout);
    case Halted =>
      w' := w;
      RefinesStay(w, n);
      RefinesHandles(w, w', n, e, Step(n, e, timeout));
  }

  lemma FollowerTickRep(w: World, n: Node, timeout: Ticks) returns (w': World)
    requires Rep(w, n) && n.role.Follower?
    ensures Refines(w, w', n, FollowerTick(n, timeout))
  {
    hide Inv, Le, Moves, MsgsOk, StandForElection;
    var n1 := n.(role := n.role.(leaderSeen := n.role.leaderSeen + 1));
    RoleRep(w, n, n1);
    RefinesStay(w, n1);
    w' := w;
    if n1.role.leaderSeen >= n1.role.electionTimeout { w' := StandForElectionRep(w, n1, true, timeout); }
  }

  lemma TickRefines(w: World, n: Node, timeout: Ticks) returns (w': World)
    requires Rep(w, n)
    ensures Refines(w, w', n, Tick(n, timeout))
  {
    hide Inv, Le, FollowerTick, CandidateTick, LeaderTick;
    match n.role
    case Follower(_, _, _, _) => w' := FollowerTickRep(w, n, timeout);
    case Candidate(_, _, _, _) => w' := CandidateTickRep(w, n, timeout);
    case Leader(_, _, _, _, _, _, _) => w' := LeaderTickRep(w, n, timeout);
    case Halted =>
      w' := w;
      RefinesStay(w, n);
  }
}
