/** Which assertions and panics of the node's code can fire in a run, and when. */
module Panics {
  import opened Basics
  import opened Machine
  import opened LogSpec
  import opened Messages
  import opened RaftNode
  import opened NodeInvariant
  import opened Protocol
  import opened ProtocolSteps
  import opened Refinement
  import opened LeaderRefinement
  import opened Cluster

  /** A response of the node's own term that its present role has no branch for: it
      has left the role to which the response was addressed, or a client's answer
      went to a leader or a candidate. */
  predicate Unexpected(n: Node, e: Envelope) {
    && e.term == n.term
    && match n.role
       case Follower(_, _, _, _) => LeaderReply(e.message)
       case Candidate(_, _, _, _) => LeaderReply(e.message) || e.message.ClientResponse?
       case Leader(_, _, _, _, _, _, _) => e.message.ClientResponse?
       case Halted => false
  }

  predicate LeaderReply(m: Message) {
    m.HeartbeatResponse? || m.AppendResponse? || m.ReadResponse?
  }

  // ------------------------------------------------------------ followers

  lemma FollowerHalts(w: World, n: Node, e: Envelope)
    requires Rep(w, n) && n.role.Follower? && MsgOk(w, e) && e.term == n.term && (e.from == n.id ==> e.message.ClientRequest?)
    ensures FollowerAtTerm(n, e).node.role.Halted? <==> LeaderReply(e.message)
  {
    hide Inv, Le, Linked, OnHeartbeat, OnAppend, OnRead, OnCampaign, OnForward, MessageTrue, Moves;
    var n1 := Heard(n, e.from);
    HeardRep(w, n, e.from);
    FollowerAtTermValue(n, e);
    match e.message
    case Heartbeat(_, _, _) => var w' := OnHeartbeatRep(w, n1, e);
    case Append(_, _, _) => var w' := OnAppendRep(w, n1, e);
    case Read(_) => var w' := OnReadRep(w, n1, e);
    case Campaign(_, _) => var w' := OnCampaignRep(w, n1, e);
    case ClientRequest(_, _) =>
      ForwardValue(n, e);
      ForwardStays(n1, e);
    case ClientResponse(_, _) =>
      ForwardValue(n, e);
      ForwardStays(n1, e);
    case _ =>
  }

  lemma ForwardStays(n: Node, e: Envelope)
    requires n.role.Follower?
    ensures OnForward(n, e).node.role.Follower?
  {
  }

  /** A response that belongs to a leadership never comes from a later term. */
  lemma RepliesAreNotAhead(w: World, n: Node, e: Envelope)
    requires Rep(w, n) && MsgOk(w, e) && e.to == n.id && LeaderReply(e.message)
    ensures e.term <= n.term
  {
    if e.term > n.term { NotThereYet(w, n.id, e.term); }
  }

  lemma LaterTermHalts(w: World, n: Node, e: Envelope, timeout: Ticks)
    requires Rep(w, n) && MsgOk(w, e) && e.to == n.id && e.term > n.term && (e.from == n.id ==> e.message.ClientRequest?)
    ensures Ok(BecomeLeaderless(n, e.term, timeout).node)
    ensures !FollowerAtTerm(BecomeLeaderless(n, e.term, timeout).node, e).node.role.Halted?
  {
    hide Inv, Le, Linked, FollowerAtTerm, MessageTrue;
    var w1 := BecomeLeaderlessRep(w, n, e.term, timeout);
    MsgStable(w, w1, e);
    FollowerHalts(w1, BecomeLeaderless(n, e.term, timeout).node, e);
    if LeaderReply(e.message) { RepliesAreNotAhead(w, n, e); }
  }

  lemma FollowerStepHalts(w: World, n: Node, e: Envelope, timeout: Ticks)
    requires Rep(w, n) && n.role.Follower? && MsgOk(w, e) && e.to == n.id && (e.from == n.id ==> e.message.ClientRequest?)
    ensures FollowerStep(n, e, timeout).node.role.Halted? <==> Unexpected(n, e)
  {
    hide Inv, Le, Linked, FollowerAtTerm, MessageTrue;
    if !IsPreVote(e.message) && e.term >= n.term {
      if e.term > n.term { LaterTermHalts(w, n, e, timeout); } else { FollowerHalts(w, n, e); }
    }
  }

  // ----------------------------------------------------------- candidates

  lemma LoserStays(w: World, n: Node, e: Envelope, timeout: Ticks)
    requires Rep(w, n) && n.role.Candidate? && MsgOk(w, e) && e.term == n.term && LeadersMessage(e.message) && e.from != n.id
    ensures Ok(LoseElection(n, e.from, timeout))
    ensures !FollowerAtTerm(LoseElection(n, e.from, timeout), e).node.role.Halted?
  {
    hide Inv, Le, FollowerAtTerm;
    var n1 := LoseElection(n, e.from, timeout);
    RetireKeeps(w, n.id);
    var w1 := Retire(w, n.id);
    MsgStable(w, w1, e);
    FollowerHalts(w1, n1, e);
  }

  lemma VoteCounts(w: World, n: Node, e: Envelope)
    requires Rep(w, n) && n.role.Candidate? && MsgOk(w, e) && e.to == n.id && e.term == n.term && e.message.CampaignResponse?
    requires Ok(n) && e.from in n.membership.active.AllVoters()
    ensures !CandidateAtTerm(n, e, 0).node.role.Halted?
  {
    hide Inv, Le, WinElection;
    if e.message.vote && n.role.phase == Election {
      CountVoteRep(w, n, e);
      var n1 := Counted(n, e.from);
      if n1.membership.active.HasQuorum(n1.role.votes) {
        hide Linked, MessageTrue;
        var w' := WinElectionRep(w, n1);
      }
    }
  }

  lemma CandidateHalts(w: World, n: Node, e: Envelope, timeout: Ticks)
    requires Rep(w, n) && n.role.Candidate? && MsgOk(w, e) && e.to == n.id && e.term == n.term && !IsPreVote(e.message)
    requires e.from == n.id ==> e.message.ClientRequest?
    ensures CandidateAtTerm(n, e, timeout).node.role.Halted? <==> Unexpected(n, e)
  {
    hide Inv, Le, Linked, FollowerAtTerm, WinElection, MessageTrue;
    match e.message
    case CampaignResponse(_) =>
      SendersVote(w, n, e);
      VoteCounts(w, n, e);
      assert CandidateAtTerm(n, e, timeout) == CandidateAtTerm(n, e, 0);
    case Heartbeat(_, _, _) => LoserStays(w, n, e, timeout);
    case Append(_, _, _) => LoserStays(w, n, e, timeout);
    case Read(_) => LoserStays(w, n, e, timeout);
    case _ =>
  }

  lemma SendersVote(w: World, n: Node, e: Envelope)
    requires Rep(w, n) && MsgOk(w, e)
    ensures e.from in n.membership.active.AllVoters()
  {
    hide Linked, Replayed, MessageTrue, Le;
  }

  lemma PreVoteStays(w: World, n: Node, e: Envelope, timeout: Ticks)
    requires Rep(w, n) && n.role.Candidate? && MsgOk(w, e) && e.to == n.id && IsPreVote(e.message)
    ensures !CandidateStep(n, e, timeout).node.role.Halted?
  {
    hide Inv, Le, WinElection, StartElection, MessageTrue;
    if e.message.PreCampaignResponse? {
      SendersVote(w, n, e);
      PreVoteResponseValue(n, e, timeout);
      if e.message.vote && n.role.phase == PreVote {
        CountVoteRep(w, n, e);
        var n1 := Counted(n, e.from);
        if n1.membership.active.HasQuorum(n1.role.votes) {
          PreVoteWinnerStays(w, n1, timeout);
        }
      }
    }
  }

  lemma PreVoteWinnerStays(w: World, n: Node, timeout: Ticks)
    requires Rep(w, n) && n.role.Candidate?
    ensures !AfterPreVote(n, timeout).node.role.Halted?
  {
    hide Inv, Le, WinElection, Linked;
    var r := StartElection(n, timeout);
    var w1 := StartElectionRep(w, n, timeout);
    if r.node.membership.active.HasQuorum(r.node.role.votes) {
      var w2 := WinElectionRep(w1, r.node);
    }
  }

  lemma CandidateStepHalts(w: World, n: Node, e: Envelope, timeout: Ticks)
    requires Rep(w, n) && n.role.Candidate? && MsgOk(w, e) && e.to == n.id && (e.from == n.id ==> e.message.ClientRequest?)
    ensures CandidateStep(n, e, timeout).node.role.Halted? <==> Unexpected(n, e)
  {
    hide Inv, Le, Linked, CandidateStep, CandidateAtTerm, FollowerAtTerm, MessageTrue;
    if IsPreVote(e.message) { PreVoteStays(w, n, e, timeout); }
    else {
      CandidateStepValue(n, e, timeout);
      if e.term > n.term { LaterTermHalts(w, n, e, timeout); }
      else if e.term == n.term { CandidateHalts(w, n, e, timeout); }
    }
  }

  // -------------------------------------------------------------- leaders

  lemma LeaderHalts(w: World, n: Node, e: Envelope)
    requires Rep(w, n) && n.role.Leader? && MsgOk(w, e) && e.term == n.term && !IsPreVote(e.message)
    ensures LeaderAtTerm(n, e).outcome.node.role.Halted? <==> e.message.ClientResponse?
    ensures !LeaderAtTerm(n, e).stepDown
  {
    hide Inv, Le, Linked, OnHeartbeatResponse, OnAppendResponse, OnRequest, OnReadAck, MessageTrue, Handles, Moves;
    match e.message
    case HeartbeatResponse(_, _) => var w' := OnHeartbeatResponseRep(w, n, e);
    case AppendResponse(_, _) => var w' := OnAppendResponseRep(w, n, e);
    case ClientRequest(id, request) =>
      var w' := LeaderAtTermRep(w, n, e);
      LeaderAtTermValue(n, e);
    case _ =>
  }

  lemma LeaderStepHalts(w: World, n: Node, e: Envelope, timeout: Ticks)
    requires Rep(w, n) && n.role.Leader? && MsgOk(w, e) && e.to == n.id && (e.from == n.id ==> e.message.ClientRequest?)
    ensures LeaderStep(n, e, timeout).node.role.Halted? <==> Unexpected(n, e)
  {
    hide Inv, Le, Linked, LeaderAtTerm, FollowerAtTerm, AbortTable, AbortReads, MessageTrue;
    if !IsPreVote(e.message) && e.term >= n.term {
      LeaderStepValue(n, e, timeout);
      hide LeaderStep;
      if e.term > n.term { LaterTermHalts(w, n, e, timeout); } else { LeaderHalts(w, n, e); }
    }
  }

  // ------------------------------------------------------------ all of it

  lemma StepHalts(w: World, n: Node, e: Envelope, timeout: Ticks)
    requires Rep(w, n) && !n.role.Halted? && MsgOk(w, e) && e.to == n.id && (e.from == n.id ==> e.message.ClientRequest?)
    ensures Step(n, e, timeout).node.role.Halted? <==> Unexpected(n, e)
  {
    hide Inv, Le, Linked, MessageTrue, Unexpected;
    KnownSenders(w, n, e) by { assert n.id in w.nodes; }
    hide LeaderStep, CandidateStep, FollowerStep;
    match n.role
    case Follower(_, _, _, _) => FollowerStepHalts(w, n, e, timeout);
    case Candidate(_, _, _, _) => CandidateStepHalts(w, n, e, timeout);
    case Leader(_, _, _, _, _, _, _) => LeaderStepHalts(w, n, e, timeout);
  }

  /** Ticking never fails an assertion. */
  lemma TickStays(n: Node, timeout: Ticks)
    requires Ok(n) && !n.role.Halted?
    ensures !Tick(n, timeout).node.role.Halted?
  {
    hide Broadcast, AbortTable, AbortReads;
  }

  lemma StartStays(w: World, n: Node, commit: Index, opts: Options, timeout: Ticks)
    requires Rep(w, n) && commit <= n.commit && opts.maxAppendEntries >= 1
    ensures !Start(n.id, w.config.voters - {n.id}, n.term, n.vote, n.log, commit, opts, timeout).node.role.Halted?
  {
    assert n.id in w.config.voters;
    hide Inv, Le, Linked;
    var w1 := ReopenedRep(w, n, commit, opts, timeout);
    StartValue(w.config, n, commit, opts, timeout);
    var n0 := Reopened(n, commit, opts, timeout);
    CaughtUpRep(w1, n0);
    var n1 := MaybeApply(n0);
    hide Start, MaybeApply;
    if ClusterSize(n1) == 1 {
      AloneWins(n1, timeout);
      var r := StandForElection(n1, false, timeout);
      var w2 := StandForElectionRep(w1, n1, false, timeout);
      hide StandForElection, WinElection;
      var w3 := WinElectionRep(w2, r.node);
    }
  }

  lemma ReactHalts(c: Cluster, event: Event, w: World)
    requires Good(c, w) && Enabled(c, event) && Ok(c.nodes[Actor(event)]) && !c.nodes[Actor(event)].role.Halted?
    ensures var n := c.nodes[Actor(event)];
      React(c.config, n, event).node.role.Halted? <==> event.Deliver? && Unexpected(n, event.envelope)
  {
    var n := c.nodes[Actor(event)];
    assert Rep(w, n) && n.id == Actor(event) && (event.Deliver? ==> MsgOk(w, event.envelope));
    hide Good, Inv, Le, Rep, Ok, MsgOk, Unexpected;
    match event
    case Deliver(e, timeout) => StepHalts(w, n, e, timeout);
    case Submit(_, id, request, timeout) => SubmitStays(w, n, id, request, timeout);
    case Expire(_, timeout) => TickStays(n, timeout);
    case Restart(_, commit, opts, timeout) => StartStays(w, n, commit, opts, timeout);
  }

  lemma SubmitStays(w: World, n: Node, id: RequestId, request: Request, timeout: Ticks)
    requires Rep(w, n) && !n.role.Halted? && !request.ChangeMembership?
    ensures !Step(n, Envelope(n.id, n.term, n.id, ClientRequest(id, request)), timeout).node.role.Halted?
  {
    hide Inv, Le, Linked, Step;
    SubmitTrue(w, n, id, request);
    StepHalts(w, n, Envelope(n.id, n.term, n.id, ClientRequest(id, request)), timeout);
  }

  /** The only panics a run can reach: a node stops exactly when a message of its own
      term finds it in a role with no branch for it. Every other assertion of the
      step functions, among them all those of `splice`, holds in every run. */
  lemma PanicsExactlyWhen(cs: seq<Cluster>, events: seq<Event>, i: nat)
    requires Run(cs, events) && i < |events| && Actor(events[i]) in cs[i].nodes
    requires !cs[i].nodes[Actor(events[i])].role.Halted?
    ensures Actor(events[i]) in cs[i + 1].nodes
    ensures cs[i + 1].nodes[Actor(events[i])].role.Halted?
      <==> events[i].Deliver? && Unexpected(cs[i].nodes[Actor(events[i])], events[i].envelope)
  {
    hide Good, Inv, Le, Ok, Unexpected, Init, React;
    var ws := Explained(cs, events);
    assert ws[i] == ws[i] && Next(cs[i], events[i], cs[i + 1]);
    ReactHalts(cs[i], events[i], ws[i]);
  }

  /** Such a response need only be late: a leader that a tick sends out of office stays
      in its term, and every answer to what it sent before then panics it. */
  lemma LateAnswersPanic(n: Node, timeout: Ticks, e: Envelope, later: Ticks)
    requires Ok(n) && n.role.Leader? && !Tick(n, timeout).node.role.Leader?
    requires e.to == n.id && e.term == n.term && KnownSender(n, e.from) && LeaderReply(e.message)
    ensures Ok(Tick(n, timeout).node) && Tick(n, timeout).node.role.Follower? && Tick(n, timeout).node.term == n.term
    ensures Step(Tick(n, timeout).node, e, later).node.role.Halted?
  {
    hide Tick, Ok, Step;
    LeftByTick(n, timeout);
    TickKeepsOk(n, timeout);
    LateAnswer(Tick(n, timeout).node, e, later);
  }

  lemma LateAnswer(n: Node, e: Envelope, timeout: Ticks)
    requires Ok(n) && n.role.Follower? && e.to == n.id && KnownSender(n, e.from) && e.term == n.term && LeaderReply(e.message)
    ensures Step(n, e, timeout).node.role.Halted?
  {
    hide OnHeartbeat, OnAppend, OnRead, OnCampaign, OnForward, CandidateStep, LeaderStep, Ok;
    assert Step(n, e, timeout) == FollowerStep(n, e, timeout);
  }

  lemma LeftByTick(n: Node, timeout: Ticks)
    requires Ok(n) && n.role.Leader? && !Tick(n, timeout).node.role.Leader?
    ensures Tick(n, timeout).node == n.(role := Follower(None, 0, timeout, {}))
  {
    hide AbortTable, AbortReads, Broadcast, Active, ClusterSize, Ok, LeaderOk;
  }
}
