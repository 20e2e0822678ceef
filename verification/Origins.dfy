/** Where requests come from: nodes pass requests on but never make them up, so every
    request that any node takes in was submitted by a client before. */
module Origins {
  import opened Basics
  import opened Configuration
  import opened Machine
  import opened LogSpec
  import opened Messages
  import opened RaftNode
  import opened NodeInvariant
  import opened Cluster
  import Elections
  import Serving

  /** No request is among the messages. */
  ghost predicate Mute(out: multiset<Envelope>) {
    forall e :: e in out ==> !e.message.ClientRequest?
  }

  lemma MutePlus(a: multiset<Envelope>, b: multiset<Envelope>)
    ensures Mute(a + b) <==> Mute(a) && Mute(b)
  {
    if Mute(a + b) {
      forall e | e in a ensures !e.message.ClientRequest? { assert e in a + b; }
      forall e | e in b ensures !e.message.ClientRequest? { assert e in a + b; }
    }
  }

  // --------------------------------------------------------------- leaders

  lemma MuteOffer(n: Node)
    requires n.role.Leader? && LeaderOk(n)
    ensures Mute(Offer(n).out)
  {
  }

  lemma MutePropose(n: Node, command: Option<Command>)
    requires CanAppend(n)
    ensures Mute(Propose(n, command).out)
  {
    hide Offer;
    MuteOffer(AppendEntry(n, command, None));
  }

  /** What serves those who wait passes no request on. */
  lemma MuteServing(n: Node, r: Outcome)
    requires Serving.Serves(n, r)
    ensures Mute(r.out)
  {
    Serving.ServesSameTerm(n, r);
    hide Serving.Serves;
  }

  lemma MuteCommit(n: Node)
    requires n.role.Leader? && Ok(n)
    ensures Mute(CommitAndApply(n).outcome.out)
  {
    hide Serving.Serves, CommitAndApply, Ok;
    Serving.CommitServes(n);
    MuteServing(n, CommitAndApply(n).outcome);
  }

  lemma MuteAtTerm(n: Node, e: Envelope)
    requires n.role.Leader? && Ok(n)
    ensures Mute(LeaderAtTerm(n, e).outcome.out)
  {
    hide Serving.Serves, LeaderAtTerm, Ok;
    if LeaderAtTerm(n, e).outcome.node.role.Leader? {
      Serving.AtTermServes(n, e);
      MuteServing(n, LeaderAtTerm(n, e).outcome);
    } else {
      Serving.HaltedSilent(n, e);
    }
  }

  lemma MuteStepDown(n: Node, term: Term, timeout: Ticks)
    requires n.role.Leader?
    ensures Mute(StepDown(n, term, timeout).out)
  {
    hide AbortTable, AbortReads;
    var n1 := if term > n.term then n.(term := term, vote := None) else n;
    Elections.TableOnlyAborts(n1, n.role.writes, 0, |n.log| + 1);
    Elections.TableOnlyAborts(n1, n.role.membershipWrites, 0, |n.log| + 1);
    Elections.ReadsOnlyAborts(n1, n.role.pendingReads);
  }

  lemma MuteAnnounce(n: Node)
    requires n.role.Leader? && Ok(n)
    ensures Mute(Announce(n).out)
  {
  }

  lemma MuteLeaderTick(n: Node, timeout: Ticks)
    requires n.role.Leader? && Ok(n)
    ensures Mute(LeaderTick(n, timeout).out)
  {
    var n1 := n.(role := n.role.(
        peerSeen := map p | p in n.role.peerSeen :: Min(n.role.peerSeen[p] + 1, MAX_TICKS),
        sinceHeartbeat := n.role.sinceHeartbeat + 1));
    assert Ok(n1);
    hide Announce, StepDown, Ok, Active;
    MuteAnnounce(n1);
    var r := if n1.role.sinceHeartbeat >= n1.opts.heartbeatInterval then Announce(n1) else Stay(n1);
    MuteStepDown(r.node, r.node.term, timeout);
  }

  // ------------------------------------------------ followers and candidates

  lemma MuteForwarded(n: Node)
    ensures Mute(AbortForwarded(n))
  {
  }

  lemma MuteElection(n: Node, timeout: Ticks)
    ensures Mute(StartElection(n, timeout).out) && Mute(StartPreVote(n, timeout).out)
  {
  }

  lemma MuteStanding(n: Node, usePreVote: bool, timeout: Ticks)
    requires n.role.Follower? && Ok(n)
    ensures Mute(StandForElection(n, usePreVote, timeout).out)
  {
    hide AbortForwarded, StartElection, StartPreVote, MaybeApply;
    MuteForwarded(n);
    MuteElection(MaybeApply(n), timeout);
  }

  lemma MuteWin(n: Node)
    requires n.role.Candidate? && Ok(n)
    ensures Mute(WinElection(n).out)
  {
    if !(n.term == 0 || n.vote != Some(n.id) || n.role.phase != Election) {
      NewLeaderAppends(n);
      hide Propose, CommitAndApply, Announce, Ok, CanAppend;
      var r1 := Propose(NewLeader(n), None);
      var r2 := CommitAndApply(r1.node).outcome;
      MutePropose(NewLeader(n), None);
      MuteCommit(r1.node);
      MuteAnnounce(r2.node);
    }
  }

  lemma NewLeaderAppends(n: Node)
    requires n.role.Candidate? && Ok(n) && n.term > 0
    ensures CanAppend(NewLeader(n))
  {
  }

  lemma MuteFollow(n: Node, from: NodeId)
    requires n.role.Follower?
    ensures Follow(n, from).Some? ==> Mute(Follow(n, from).value.out)
  {
    hide AbortForwarded;
    MuteForwarded(n);
  }

  lemma MuteLeadersMessages(n: Node, e: Envelope)
    requires n.role.Follower? && Ok(n) && (e.message.Heartbeat? || e.message.Append? || e.message.Read? || e.message.Campaign?)
    ensures Mute(FollowerAtTerm(n, e).out)
  {
    hide OnHeartbeat, OnAppend, OnRead, OnCampaign, Ok, Mute;
    SeenOk(n);
    var n1 := if n.role.leader == Some(e.from) then n.(role := n.role.(leaderSeen := 0)) else n;
    match e.message
    case Heartbeat(_, _, _) => MuteHeartbeat(n1, e);
    case Append(_, _, _) => MuteAppend(n1, e);
    case Read(_) => MuteReadAnswer(n1, e);
    case Campaign(_, _) => MuteCampaign(n1, e);
  }

  lemma MuteHeartbeat(n: Node, e: Envelope)
    requires n.role.Follower? && Ok(n) && e.message.Heartbeat?
    ensures Mute(OnHeartbeat(n, e).out)
  {
    hide Has, MaybeApply, Follow, LeaderOk;
    MuteFollow(n, e.from);
  }

  lemma MuteAppend(n: Node, e: Envelope)
    requires n.role.Follower? && Ok(n) && e.message.Append?
    ensures Mute(OnAppend(n, e).out)
  {
    hide Splice, Has, AdoptMembership, Follow, LeaderOk;
    MuteFollow(n, e.from);
  }

  lemma MuteReadAnswer(n: Node, e: Envelope)
    requires n.role.Follower? && e.message.Read?
    ensures Mute(OnRead(n, e).out)
  {
    hide Follow;
    MuteFollow(n, e.from);
  }

  lemma MuteCampaign(n: Node, e: Envelope)
    requires n.role.Follower? && e.message.Campaign?
    ensures Mute(OnCampaign(n, e).out)
  {
  }

  /** A request sent on is the one that came in. */
  predicate Passes(out: multiset<Envelope>, m: Message) {
    forall e :: e in out && e.message.ClientRequest? ==> e.message == m
  }

  lemma PassesPlus(a: multiset<Envelope>, b: multiset<Envelope>, m: Message)
    requires Passes(a, m) && Passes(b, m)
    ensures Passes(a + b, m)
  {
  }

  lemma MutePasses(out: multiset<Envelope>, m: Message)
    requires Mute(out)
    ensures Passes(out, m)
  {
  }

  lemma FollowerPasses(n: Node, e: Envelope)
    requires n.role.Follower? && Ok(n)
    ensures Passes(FollowerAtTerm(n, e).out, e.message)
  {
    if e.message.Heartbeat? || e.message.Append? || e.message.Read? || e.message.Campaign? {
      MuteLeadersMessages(n, e);
      MutePasses(FollowerAtTerm(n, e).out, e.message);
    }
    hide OnHeartbeat, OnAppend, OnRead, OnCampaign;
  }

  lemma LaterTermPasses(n: Node, e: Envelope, r: Outcome)
    requires r.node.role.Follower? && Ok(r.node) && Mute(r.out)
    ensures Passes(FollowerAtTerm(r.node, e).Also(r.out).out, e.message)
  {
    hide FollowerAtTerm;
    FollowerPasses(r.node, e);
    MutePasses(r.out, e.message);
    PassesPlus(FollowerAtTerm(r.node, e).out, r.out, e.message);
  }

  lemma LeaderlessStarts(n: Node, term: Term, timeout: Ticks)
    requires Ok(n)
    ensures var r := BecomeLeaderless(n, term, timeout); r.node.role.Follower? && Ok(r.node) && Mute(r.out)
    ensures n.role.Leader? ==> var r := StepDown(n, term, timeout); r.node.role.Follower? && Ok(r.node) && Mute(r.out)
  {
    hide AbortForwarded, AbortTable, AbortReads;
    MuteForwarded(n);
    if n.role.Leader? { MuteStepDown(n, term, timeout); }
  }

  lemma CandidatePasses(n: Node, e: Envelope, timeout: Ticks)
    requires n.role.Candidate? && Ok(n)
    ensures Passes(CandidateAtTerm(n, e, timeout).out, e.message)
  {
    hide WinElection, FollowerAtTerm;
    match e.message
    case CampaignResponse(_) =>
      var n1 := Counted(n, e.from);
      MuteWin(n1);
    case Heartbeat(_, _, _) => FollowerPasses(LoseElection(n, e.from, timeout), e);
    case Append(_, _, _) => FollowerPasses(LoseElection(n, e.from, timeout), e);
    case Read(_) => FollowerPasses(LoseElection(n, e.from, timeout), e);
    case _ =>
  }

  lemma PreVotePasses(n: Node, e: Envelope, timeout: Ticks)
    requires n.role.Candidate? && Ok(n) && IsPreVote(e.message)
    ensures Passes(CandidateStep(n, e, timeout).out, e.message)
  {
    hide WinElection, StartElection;
    if e.message == PreCampaignResponse(true) && n.role.phase == PreVote {
      var n1 := Counted(n, e.from);
      var r := StartElection(n1, timeout);
      MuteElection(n1, timeout);
      ElectionStarts(n1, timeout);
      MuteWin(r.node);
    }
  }

  lemma ElectionStarts(n: Node, timeout: Ticks)
    requires Ok(n)
    ensures StartElection(n, timeout).node.role.Candidate? && Ok(StartElection(n, timeout).node)
  {
  }

  lemma CandidateStepPasses(n: Node, e: Envelope, timeout: Ticks)
    requires n.role.Candidate? && Ok(n)
    ensures Passes(CandidateStep(n, e, timeout).out, e.message)
  {
    if IsPreVote(e.message) {
      PreVotePasses(n, e, timeout);
    } else {
      hide CandidateAtTerm, FollowerAtTerm, BecomeLeaderless, Ok;
      if e.term > n.term {
        LeaderlessStarts(n, e.term, timeout);
        LaterTermPasses(n, e, BecomeLeaderless(n, e.term, timeout));
      } else if e.term == n.term {
        CandidatePasses(n, e, timeout);
      }
    }
  }

  lemma FollowerStepPasses(n: Node, e: Envelope, timeout: Ticks)
    requires n.role.Follower? && Ok(n)
    ensures Passes(FollowerStep(n, e, timeout).out, e.message)
  {
    hide FollowerAtTerm, BecomeLeaderless, Ok;
    if !IsPreVote(e.message) {
      if e.term > n.term {
        LeaderlessStarts(n, e.term, timeout);
        LaterTermPasses(n, e, BecomeLeaderless(n, e.term, timeout));
      } else if e.term == n.term {
        FollowerPasses(n, e);
      }
    }
  }

  lemma LeaderStepPasses(n: Node, e: Envelope, timeout: Ticks)
    requires n.role.Leader? && Ok(n)
    ensures Passes(LeaderStep(n, e, timeout).out, e.message)
  {
    hide LeaderAtTerm, FollowerAtTerm, StepDown, Ok;
    if !IsPreVote(e.message) {
      if e.term > n.term {
        LeaderlessStarts(n, e.term, timeout);
        LaterTermPasses(n, e, StepDown(n, e.term, timeout));
      } else if e.term == n.term {
        MuteAtTerm(n, e);
        var r := LeaderAtTerm(n, e);
        if r.stepDown { MuteStepDown(r.outcome.node, r.outcome.node.term, timeout); }
      }
    }
  }

  lemma StepPasses(n: Node, e: Envelope, timeout: Ticks)
    requires Ok(n)
    ensures Passes(Step(n, e, timeout).out, e.message)
  {
    hide FollowerStep, CandidateStep, LeaderStep, Ok;
    match n.role
    case Follower(_, _, _, _) => FollowerStepPasses(n, e, timeout);
    case Candidate(_, _, _, _) => CandidateStepPasses(n, e, timeout);
    case Leader(_, _, _, _, _, _, _) => LeaderStepPasses(n, e, timeout);
    case Halted =>
  }

  lemma MuteTick(n: Node, timeout: Ticks)
    requires Ok(n)
    ensures Mute(Tick(n, timeout).out)
  {
    hide StandForElection, StartElection, StartPreVote, LeaderTick;
    match n.role
    case Follower(_, _, _, _) => MuteStanding(n.(role := n.role.(leaderSeen := n.role.leaderSeen + 1)), true, timeout);
    case Candidate(_, _, _, _) => MuteElection(n.(role := n.role.(electionDuration := n.role.electionDuration + 1)), timeout);
    case Leader(_, _, _, _, _, _, _) => MuteLeaderTick(n, timeout);
    case Halted =>
  }

  lemma MuteStart(n: Node, peers: set<NodeId>, commit: Index, opts: Options, timeout: Ticks)
    requires Ok(n) && commit <= n.commit
    ensures Mute(Start(n.id, peers, n.term, n.vote, n.log, commit, opts, timeout).out)
  {
    hide StandForElection, WinElection, MaybeApply, RestoreMembership;
    var n0 := Node(n.id, RestoreMembership(Bootstrap(n.id, peers), n.log, commit), n.term, n.vote, n.log, commit, EmptyState, opts,
                   Follower(None, 0, timeout, {}));
    var n1 := MaybeApply(n0);
    if ClusterSize(n1) == 1 {
      MuteStanding(n1, false, timeout);
      StandForElectionKeeps(n1, false, timeout);
      MuteWin(StandForElection(n1, false, timeout).node);
    }
  }

  // ------------------------------------------------------------------ runs

  /** The request was submitted somewhere, in an event before the k-th. */
  predicate Submitted(events: seq<Event>, k: nat, id: RequestId, request: Request) {
    exists j :: 0 <= j < k && j < |events| && events[j].Submit? && events[j].id == id && events[j].request == request
  }

  /** An event sends no request but the one it handles. */
  lemma EventPasses(c: Cluster, event: Event, c': Cluster, e: Envelope)
    requires Next(c, event, c') && e in c'.sent && e !in c.sent && e.message.ClientRequest?
    ensures (event.Deliver? || event.Submit?) && e.message == Handled(c.nodes[Actor(event)], event).message
  {
    hide Step, Tick, Start, Ok;
    var n := c.nodes[Actor(event)];
    match event
    case Deliver(m, timeout) => StepPasses(n, m, timeout);
    case Submit(_, _, _, timeout) => StepPasses(n, Handled(n, event), timeout);
    case Expire(_, timeout) => MuteTick(n, timeout);
    case Restart(_, commit, opts, timeout) => MuteStart(n, c.config.voters - {n.id}, commit, opts, timeout);
  }

  lemma {:induction false} SentWasSubmitted(cs: seq<Cluster>, events: seq<Event>, i: nat, e: Envelope, id: RequestId, request: Request)
    requires Run(cs, events) && i < |cs| && e in cs[i].sent && e.message == ClientRequest(id, request)
    ensures Submitted(events, i, id, request)
    decreases i
  {
    hide React, Ok;
    if i > 0 {
      assert Next(cs[i - 1], events[i - 1], cs[i]);
      if e in cs[i - 1].sent {
        SentWasSubmitted(cs, events, i - 1, e, id, request);
      } else {
        EventPasses(cs[i - 1], events[i - 1], cs[i], e);
        if events[i - 1].Deliver? { SentWasSubmitted(cs, events, i - 1, events[i - 1].envelope, id, request); }
      }
    }
  }

  /** Whatever request a node handles was submitted by then. */
  lemma HandledWasSubmitted(cs: seq<Cluster>, events: seq<Event>, i: nat, id: RequestId, request: Request)
    requires Run(cs, events) && i < |events| && (events[i].Deliver? || events[i].Submit?) && Actor(events[i]) in cs[i].nodes
    requires Handled(cs[i].nodes[Actor(events[i])], events[i]).message == ClientRequest(id, request)
    ensures Submitted(events, i + 1, id, request)
  {
    assert Next(cs[i], events[i], cs[i + 1]);
    if events[i].Deliver? { SentWasSubmitted(cs, events, i, events[i].envelope, id, request); }
  }
}
