/** What a node keeps on its own, whatever messages reach it: well-formed numbering,
    applied <= commit <= last, and for a leader the bounds of every peer's progress.
    Nothing is assumed of the messages, and configurations may change. */
module NodeInvariant {
  import opened Basics
  import opened Configuration
  import opened Machine
  import opened LogSpec
  import opened Messages
  import opened RaftNode

  /** Splicing arbitrary entries keeps the log numbered and the commit index inside it. */
  lemma SpliceKeepsNumbers(log: seq<Entry>, commit: Index, term: Term, es: seq<Entry>)
    requires Indexed(log) && commit <= |log| && Splice(log, 1, commit, term, es).Some?
    ensures var r := Splice(log, 1, commit, term, es).value; Indexed(r) && commit <= |r|
  {
    if es != [] { SuppliedNumbers(es); }
  }

  lemma FollowKeeps(n: Node, from: NodeId)
    requires n.role.Follower? && Follow(n, from).Some?
    ensures var r := Follow(n, from).value.node; r == n.(role := r.role) && (r.role.Follower? || r.role.Halted?)
  {
  }

  lemma OnAppendKeeps(n: Node, e: Envelope)
    requires Ok(n) && n.role.Follower? && e.message.Append?
    ensures Ok(OnAppend(n, e).node) && OnAppend(n, e).node.id == n.id
  {
    hide Follow, Splice, AdoptMembership, Indexed;
    if Follow(n, e.from).Some? { FollowKeeps(n, e.from); }
    if Splice(n.log, 1, n.commit, n.term, e.message.entries).Some? {
      SpliceKeepsNumbers(n.log, n.commit, n.term, e.message.entries);
    }
  }

  lemma OnHeartbeatKeeps(n: Node, e: Envelope)
    requires Ok(n) && n.role.Follower? && e.message.Heartbeat?
    ensures Ok(OnHeartbeat(n, e).node) && OnHeartbeat(n, e).node.id == n.id
  {
    hide Apply;
  }

  lemma FollowerAtTermKeeps(n: Node, e: Envelope)
    requires Ok(n) && n.role.Follower?
    ensures Ok(FollowerAtTerm(n, e).node) && FollowerAtTerm(n, e).node.id == n.id
  {
    hide OnAppend, OnHeartbeat;
    var n1 := if n.role.leader == Some(e.from) then n.(role := n.role.(leaderSeen := 0)) else n;
    if e.message.Append? { OnAppendKeeps(n1, e); }
    if e.message.Heartbeat? { OnHeartbeatKeeps(n1, e); }
  }

  lemma WinElectionKeeps(n: Node)
    requires Ok(n) && n.role.Candidate?
    ensures Ok(WinElection(n).node) && WinElection(n).node.id == n.id
  {
    if !(n.term == 0 || n.vote != Some(n.id) || n.role.phase != Election) {
      var r1 := Propose(NewLeader(n), None);
      CommitAndApplyId(r1.node);
    }
    hide CommitAndApply, Offer;
  }

  lemma {:induction false} ApplyAllId(n: Node)
    requires Ok(n) && n.role.Leader?
    ensures ApplyAll(n).node.id == n.id
    decreases n.commit - Applied(n.machine)
  {
    if Applied(n.machine) < n.commit { ApplyAllId(ApplyNext(n).node); }
  }

  lemma {:induction false} AfterConfigurationsId(n: Node, ms: seq<MembershipEntry>)
    requires Ok(n) && n.role.Leader?
    ensures AfterConfigurations(n, ms).outcome.node.id == n.id
    decreases |ms|
  {
    if ms != [] {
      var r := if ms[0].Joint? then ProposeMembership(n, Simple(ms[0].incoming)) else Stay(n);
      AfterConfigurationsId(SyncProgress(r.node), ms[1..]);
    }
  }

  lemma CommitAndApplyId(n: Node)
    requires Ok(n) && n.role.Leader?
    ensures CommitAndApply(n).outcome.node.id == n.id
  {
    var target := CommitTarget(n, |n.log|);
    if target > n.commit {
      var n1 := n.(commit := target);
      ApplyAllId(n1);
      var n2 := ApplyAll(n1).node;
      var ms := Configurations(n.log, Applied(n.machine), target);
      AfterConfigurationsId(n2, ms);
      AnswerReadsFrame(AfterConfigurations(n2, ms).outcome.node);
    }
    hide ApplyAll, AfterConfigurations, AnswerReads, Configurations, CommitTarget;
  }

  lemma StandForElectionKeeps(n: Node, usePreVote: bool, timeout: Ticks)
    requires Ok(n) && n.role.Follower?
    ensures var c := StandForElection(n, usePreVote, timeout).node; Ok(c) && c.id == n.id && c.role.Candidate?
  {
  }

  lemma CandidateKeeps(n: Node, e: Envelope, timeout: Ticks)
    requires Ok(n) && n.role.Candidate?
    ensures Ok(CandidateAtTerm(n, e, timeout).node) && CandidateAtTerm(n, e, timeout).node.id == n.id
  {
    hide FollowerAtTerm, WinElection;
    match e.message
    case CampaignResponse(vote) =>
      if vote && n.role.phase == Election {
        var n1 := Counted(n, e.from);
        if n1.membership.active.HasQuorum(n1.role.votes) { WinElectionKeeps(n1); }
      }
    case Heartbeat(_, _, _) => FollowerAtTermKeeps(LoseElection(n, e.from, timeout), e);
    case Append(_, _, _) => FollowerAtTermKeeps(LoseElection(n, e.from, timeout), e);
    case Read(_) => FollowerAtTermKeeps(LoseElection(n, e.from, timeout), e);
    case _ =>
  }

  lemma CandidateStepKeeps(n: Node, e: Envelope, timeout: Ticks)
    requires Ok(n) && n.role.Candidate?
    ensures Ok(CandidateStep(n, e, timeout).node) && CandidateStep(n, e, timeout).node.id == n.id
  {
    hide FollowerAtTerm, WinElection, CandidateAtTerm;
    match e.message
    case PreCampaign(_, _) =>
    case PreCampaignResponse(vote) =>
      var n1 := Counted(n, e.from);
      WinElectionKeeps(StartElection(n1, timeout).node);
    case _ =>
      FollowerAtTermKeeps(BecomeLeaderless(n, e.term, timeout).node, e);
      CandidateKeeps(n, e, timeout);
  }

  lemma CommitIfAloneId(r: Outcome)
    requires Ok(r.node) && r.node.role.Leader?
    ensures CommitIfAlone(r).outcome.node.id == r.node.id
  {
    CommitAndApplyId(r.node);
    hide CommitAndApply;
  }

  lemma OnRequestId(n: Node, client: Client, request: Request)
    requires Ok(n) && n.role.Leader?
    ensures OnRequest(n, client, request).outcome.node.id == n.id
  {
    hide OnWrite, CommitIfAlone, AnswerReads;
    match request
    case ReadRequest(query) =>
      var n1 := n.(role := n.role.(readSeq := n.role.readSeq + 1,
                                   pendingReads := n.role.pendingReads + [PendingRead(n.role.readSeq + 1, client, query)]));
      AnswerReadsFrame(n1);
    case StatusRequest =>
    case ChangeMembership(voters) => OnChangeId(n, client, voters);
    case _ => OnWriteId(n, client, request);
  }

  lemma OnChangeId(n: Node, client: Client, voters: set<NodeId>)
    requires Ok(n) && n.role.Leader?
    ensures OnRequest(n, client, ChangeMembership(voters)).outcome.node.id == n.id
  {
    hide CommitIfAlone;
    if ChangeError(n, voters).None? {
      var m := Joint(n.membership.active.config, Membership(voters));
      var r := ProposeMembership(n, m);
      ProposeMembershipId(n, m);
      CommitIfAloneId(Outcome(r.node.(role := r.node.role.(membershipWrites := r.node.role.membershipWrites[|r.node.log| := client])), r.out));
    }
  }

  lemma OnWriteId(n: Node, client: Client, request: Request)
    requires Ok(n) && n.role.Leader? && (request.WriteRequest? || request.SessionRequest?)
    ensures OnWrite(n, client, request).outcome.node.id == n.id
  {
    hide CommitIfAlone;
    var r := Propose(n, Some(CommandOf(request)));
    ProposeId(n, Some(CommandOf(request)));
    CommitIfAloneId(Outcome(r.node.(role := r.node.role.(writes := r.node.role.writes[|r.node.log| := client])), r.out));
  }

  lemma ProposeId(n: Node, command: Option<Command>)
    requires CanAppend(n)
    ensures Propose(n, command).node.id == n.id
  {
  }

  lemma ProposeMembershipId(n: Node, m: MembershipEntry)
    requires CanAppend(n)
    ensures ProposeMembership(n, m).node.id == n.id
  {
  }

  lemma OnMatchId(n: Node, peer: NodeId, index: Index)
    requires Ok(n) && n.role.Leader? && peer in n.role.progress && index <= |n.log|
    ensures OnMatch(n, peer, index).outcome.node.id == n.id
  {
    hide CommitAndApply;
    if index > n.role.progress[peer].matchIndex {
      CommitAndApplyId(SetProgress(n, peer, n.role.progress[peer].Advance(index)));
    }
  }

  lemma OnReadAckId(n: Node, peer: NodeId, serial: nat)
    requires Ok(n) && n.role.Leader? && peer in n.role.progress
    ensures OnReadAck(n, peer, serial).node.id == n.id
  {
    if serial > n.role.progress[peer].readSeq {
      AnswerReadsFrame(SetProgress(n, peer, n.role.progress[peer].AdvanceRead(serial)));
    }
    hide AnswerReads;
  }

  lemma OnHeartbeatResponseId(n: Node, e: Envelope)
    requires Ok(n) && n.role.Leader? && e.message.HeartbeatResponse?
    ensures OnHeartbeatResponse(n, e).outcome.node.id == n.id
  {
    hide OnMatch, OnReadAck, Probe;
    var m := e.message;
    if e.from in n.role.progress && m.matchIndex <= |n.log| && m.readSeq <= n.role.readSeq {
      var n1 := NotePeer(n, e.from);
      OnReadAckId(n1, e.from, m.readSeq);
      var r2 := OnReadAck(n1, e.from, m.readSeq);
      var r3 := if m.matchIndex != 0 then Stay(r2.node) else Probe(r2.node, e.from, |n1.log|);
      OnMatchId(r3.node, e.from, m.matchIndex);
    }
  }

  lemma OnAppendResponseId(n: Node, e: Envelope)
    requires Ok(n) && n.role.Leader? && e.message.AppendResponse?
    ensures OnAppendResponse(n, e).outcome.node.id == n.id
  {
    hide OnMatch, Probe, SendAppend;
    if e.from in n.role.progress && e.message.matchIndex <= |n.log| {
      var n1 := NotePeer(n, e.from);
      OnMatchId(n1, e.from, e.message.matchIndex);
      SendAppendId(OnMatch(n1, e.from, e.message.matchIndex).outcome.node, e.from, false);
    }
  }

  lemma LeaderAtTermId(n: Node, e: Envelope)
    requires Ok(n) && n.role.Leader?
    ensures LeaderAtTerm(n, e).outcome.node.id == n.id
  {
    hide OnHeartbeatResponse, OnAppendResponse, OnReadAck, OnRequest, Ok, NotePeer;
    NotedOk(n, e.from);
    match e.message
    case HeartbeatResponse(_, _) => OnHeartbeatResponseId(n, e);
    case AppendResponse(_, _) => OnAppendResponseId(n, e);
    case ReadResponse(serial) =>
      if e.from in n.role.progress { OnReadAckId(NotePeer(n, e.from), e.from, serial); }
    case ClientRequest(id, request) => OnRequestId(n, Client(e.from, id), request);
    case _ =>
  }

  lemma SendAppendId(n: Node, peer: NodeId, probe: bool)
    requires n.role.Leader? && LeaderOk(n)
    ensures SendAppend(n, peer, probe).node.id == n.id
  {
  }

  lemma LeaderStepKeeps(n: Node, e: Envelope, timeout: Ticks)
    requires Ok(n) && n.role.Leader?
    ensures Ok(LeaderStep(n, e, timeout).node) && LeaderStep(n, e, timeout).node.id == n.id
  {
    FollowerAtTermKeeps(StepDown(n, e.term, timeout).node, e);
    LeaderAtTermId(n, e);
    hide LeaderAtTerm, FollowerAtTerm, AbortTable, AbortReads;
  }

  /** Whatever message arrives, and whatever it claims. */
  lemma StepKeepsOk(n: Node, e: Envelope, timeout: Ticks)
    requires Ok(n)
    ensures Ok(Step(n, e, timeout).node) && Step(n, e, timeout).node.id == n.id
  {
    hide LeaderStep, CandidateStep, FollowerAtTerm;
    match n.role
    case Follower(_, _, _, _) =>
      FollowerAtTermKeeps(BecomeLeaderless(n, e.term, timeout).node, e);
      FollowerAtTermKeeps(n, e);
    case Candidate(_, _, _, _) => CandidateStepKeeps(n, e, timeout);
    case Leader(_, _, _, _, _, _, _) => LeaderStepKeeps(n, e, timeout);
    case Halted =>
  }

  lemma LeaderTickKeeps(n: Node, timeout: Ticks)
    requires Ok(n) && n.role.Leader?
    ensures Ok(LeaderTick(n, timeout).node) && LeaderTick(n, timeout).node.id == n.id
  {
    hide AbortTable, AbortReads, Broadcast, Active;
  }

  lemma FollowerTickKeeps(n: Node, timeout: Ticks)
    requires Ok(n) && n.role.Follower?
    ensures Ok(FollowerTick(n, timeout).node) && FollowerTick(n, timeout).node.id == n.id
  {
    hide StandForElection;
    StandForElectionKeeps(n.(role := n.role.(leaderSeen := n.role.leaderSeen + 1)), true, timeout);
  }

  lemma TickKeepsOk(n: Node, timeout: Ticks)
    requires Ok(n)
    ensures Ok(Tick(n, timeout).node) && Tick(n, timeout).node.id == n.id
  {
    hide FollowerTick, LeaderTick;
    match n.role
    case Follower(_, _, _, _) => FollowerTickKeeps(n, timeout);
    case Candidate(_, _, _, _) =>
    case Leader(_, _, _, _, _, _, _) => LeaderTickKeeps(n, timeout);
    case Halted =>
  }
}
