/** A run in which a node panics (src/raft/node.rs:897-903): three nodes, an election,
    a heartbeat that is answered, the ticks after which the leader has lost its quorum,
    and then the answer. */
module LateAnswers {
  import opened Basics
  import opened Configuration
  import opened Machine
  import opened LogSpec
  import opened Messages
  import opened RaftNode
  import opened NodeInvariant
  import opened CheckQuorum
  import opened Cluster
  import opened Panics

  const Voters := Membership({1, 2, 3})

  /** The default timeouts and batches (src/raft/mod.rs:207-215), without pre-vote. */
  const Settings := Options(4, 20, 100, false, true)

  function Started(id: NodeId): Node {
    Node(id, MembershipState(Simple(Voters), false), 0, None, [], 0, EmptyState, Settings, Follower(None, 0, 10, {}))
  }

  /** Node 1 after some ticks. */
  function Waiting(k: nat): Node {
    Started(1).(role := Follower(None, k, 10, {}))
  }

  function Standing(): Node {
    Started(1).(term := 1, vote := Some(1), role := Candidate({1}, 0, 10, Election))
  }

  /** The leader when nobody has answered for k ticks. */
  predicate Led(n: Node, k: nat) {
    && n.role.Leader? && Ok(n) && n.id == 1 && n.term == 1 && n.opts == Settings && n.membership.active == Simple(Voters)
    && forall p :: p in n.role.peerSeen ==> n.role.peerSeen[p] == k
  }

  function Voted(): Node {
    Started(2).(term := 1, vote := Some(1))
  }

  // ------------------------------------------------------- the nodes' steps

  lemma Starts(id: NodeId)
    requires id in Voters.voters
    ensures Start(id, Voters.voters - {id}, 0, None, [], 0, Settings, 10) == Stay(Started(id)) && Ok(Started(id))
  {
    assert {id} + (Voters.voters - {id}) == Voters.voters;
    ThreeVoters();
  }

  lemma ThreeVoters()
    ensures |Voters.voters| == 3 && Voters.QuorumSize() == 2
  {
    assert Voters.voters == {1, 2} + {3};
  }

  lemma Waits(k: nat)
    requires k < 9
    ensures Ok(Waiting(k)) && Tick(Waiting(k), 10) == Stay(Waiting(k + 1))
  {
  }

  lemma Stands()
    ensures Ok(Waiting(9)) && Tick(Waiting(9), 10).node == Standing() && Ok(Standing())
    ensures Envelope(1, 1, 2, Campaign(0, 0)) in Tick(Waiting(9), 10).out
  {
    assert AbortForwarded(Waiting(10)) == multiset{};
    assert 2 in Peers(Standing());
    assert Send(Standing(), 2, Campaign(0, 0)) in set p | p in Peers(Standing()) :: Send(Standing(), p, Campaign(0, 0));
  }

  lemma Votes()
    ensures Step(Started(2), Envelope(1, 1, 2, Campaign(0, 0)), 10)
      == Outcome(Voted(), multiset{Envelope(2, 1, 1, CampaignResponse(true))})
    ensures Ok(Voted())
  {
    hide OnHeartbeat, OnAppend, OnRead, OnForward, CandidateStep, LeaderStep;
    assert AbortForwarded(Started(2)) == multiset{};
  }

  lemma Wins()
    ensures var r := Step(Standing(), Envelope(2, 1, 1, CampaignResponse(true)), 10);
      && r.node.role.Leader? && Ok(r.node) && r.node.id == 1 && r.node.term == 1 && r.node.opts == Settings
      && r.node.membership.active == Simple(Voters) && (forall p :: p in r.node.role.peerSeen ==> r.node.role.peerSeen[p] == 0)
      && exists last, commit :: commit <= last && Envelope(1, 1, 2, Heartbeat(last, commit, 0)) in r.out
  {
    hide Step, WinElection, Ok;
    Stands();
    StepKeepsOk(Standing(), Envelope(2, 1, 1, CampaignResponse(true)), 10);
    CountsBoth();
    WinsNow(Standing().(role := Candidate({1, 2}, 0, 10, Election)));
  }

  lemma CountsBoth()
    ensures var n := Standing().(role := Candidate({1, 2}, 0, 10, Election));
      Ok(Standing()) && Ok(n) && Step(Standing(), Envelope(2, 1, 1, CampaignResponse(true)), 10) == WinElection(n)
  {
    hide WinElection, FollowerStep, LeaderStep, FollowerAtTerm, StartElection, MembershipEntry.HasQuorum;
    CountsTwo();
    assert Standing().role.votes + {2} == {1, 2};
  }

  lemma CountsTwo()
    ensures Simple(Voters).HasQuorum({1, 2}) && !Simple(Voters).HasQuorum({1})
  {
    ThreeVoters();
    assert Voters.voters * {1, 2} == {1, 2} && Voters.voters * {1} == {1};
  }

  lemma WinsNow(n: Node)
    requires n == Standing().(role := Candidate({1, 2}, 0, 10, Election))
    ensures Ok(n)
    ensures var r := WinElection(n);
      && r.node.role.Leader? && r.node.id == 1 && r.node.term == 1 && r.node.opts == Settings
      && r.node.membership.active == Simple(Voters) && (forall p :: p in r.node.role.peerSeen ==> r.node.role.peerSeen[p] == 0)
      && exists last, commit :: commit <= last && Envelope(1, 1, 2, Heartbeat(last, commit, 0)) in r.out
  {
    ProposesNoOp(n);
    var r1 := Propose(NewLeader(n), None);
    CommitsNothing(r1.node);
    assert CommitAndApply(r1.node) == CommitOutcome(Stay(r1.node), false) && Ok(r1.node);
    Announces(r1.node);
    hide Propose, CommitAndApply, Announce, Ok;
    assert Envelope(1, 1, 2, Heartbeat(1, 0, 0)) in WinElection(n).out;
  }

  lemma ProposesNoOp(n: Node)
    requires n == Standing().(role := Candidate({1, 2}, 0, 10, Election))
    ensures Ok(n) && CanAppend(NewLeader(n))
    ensures var r := Propose(NewLeader(n), None).node;
      r.role.Leader? && Ok(r) && r.log == [Entry(1, 1, None, None)] && r.commit == 0 && r.id == 1 && r.term == 1 && r.opts == Settings
      && r.membership == n.membership && r.role.readSeq == 0 && r.role.peerSeen == NewLeader(n).role.peerSeen
      && (forall p :: p in r.role.progress ==> r.role.progress[p].matchIndex == 0)
  {
    hide NextAppend, TermAt;
  }

  lemma CommitsNothing(n: Node)
    requires n.role.Leader? && Ok(n) && |n.log| == 1 && n.commit == 0 && n.id == 1 && n.membership.active == Simple(Voters)
    requires forall p :: p in n.role.progress ==> n.role.progress[p].matchIndex == 0
    ensures CommitAndApply(n) == CommitOutcome(Stay(n), false)
  {
    hide Ok;
    CountsTwo();
    assert Holders(n, 1) == {1};
    assert CommitTarget(n, 1) == 0;
  }

  lemma Announces(n: Node)
    requires n.role.Leader? && Ok(n) && n.id == 1 && n.term == 1 && n.membership.active == Simple(Voters)
    ensures Envelope(1, 1, 2, Heartbeat(|n.log|, n.commit, n.role.readSeq)) in Announce(n).out
  {
    hide Ok;
    var m := Heartbeat(|n.log|, n.commit, n.role.readSeq);
    assert 2 in Peers(n);
    assert Send(n, 2, m) in set p | p in Peers(n) :: Send(n, p, m);
  }

  lemma AnswersHeartbeat(last: Index, commit: Index)
    requires commit <= last
    ensures exists m: Messages.Message :: m.HeartbeatResponse? && Envelope(2, 1, 1, m) in Step(Voted(), Envelope(1, 1, 2, Heartbeat(last, commit, 0)), 10).out
  {
    hide OnAppend, OnRead, OnForward, OnCampaign, CandidateStep, LeaderStep, MaybeApply;
    var e := Envelope(1, 1, 2, Heartbeat(last, commit, 0));
    assert Step(Voted(), e, 10) == OnHeartbeat(Voted(), e);
    var m := HeartbeatResponse(if Has([], last, 1) then last else 0, 0);
    assert Envelope(2, 1, 1, m) in OnHeartbeat(Voted(), e).out;
  }

  /** The leader stays for as long as the last answers are younger than the window. */
  lemma StaysQuiet(n: Node, k: nat)
    requires Led(n, k) && k < 18
    ensures Led(Tick(n, 10).node, k + 1)
  {
    hide Majority, Tick, Ok;
    LeavesIff(n, 10);
    AllYoung(n, k);
    TickKeepsOk(n, 10);
    Counts(n);
  }

  lemma AllYoung(n: Node, k: nat)
    requires Led(n, k) && k < 18
    ensures Majority(n.membership.active, {n.id} + set p | p in n.role.peerSeen && Min(n.role.peerSeen[p] + 1, MAX_TICKS) < Window(n))
  {
    var heard := {n.id} + set p | p in n.role.peerSeen && Min(n.role.peerSeen[p] + 1, MAX_TICKS) < Window(n);
    assert n.role.peerSeen.Keys == Peers(n);
    ThreeVoters();
    assert Voters.voters * heard == Voters.voters;
  }

  lemma Counts(n: Node)
    requires n.role.Leader? && Ok(n) && Tick(n, 10).node.role.Leader?
    ensures var r := Tick(n, 10).node;
      && r.id == n.id && r.term == n.term && r.opts == n.opts && r.membership == n.membership
      && r.role.peerSeen.Keys == n.role.peerSeen.Keys
      && forall p :: p in n.role.peerSeen ==> r.role.peerSeen[p] == Min(n.role.peerSeen[p] + 1, MAX_TICKS)
  {
    hide AbortTable, AbortReads, Broadcast, Active, ClusterSize, Ok, LeaderOk;
  }

  /** One tick more without an answer is more than the window allows. */
  lemma LosesQuorum(n: Node)
    requires Led(n, 18)
    ensures !Tick(n, 10).node.role.Leader?
  {
    hide Ok, Tick;
    LeavesIff(n, 10);
    CountsTwo();
    ThreeVoters();
    assert {n.id} + (set p | p in n.role.peerSeen && Min(n.role.peerSeen[p] + 1, MAX_TICKS) < Window(n)) == {1};
  }

  // ---------------------------------------------------------------- the run

  /** The cluster after an event. */
  function Do(c: Cluster, event: Event): Cluster
    requires Enabled(c, event) && Ok(c.nodes[Actor(event)])
  {
    var r := React(c.config, c.nodes[Actor(event)], event);
    Cluster(c.config, c.nodes[Actor(event) := r.node], c.sent + set e | e in r.out)
  }

  ghost predicate Reached(c: Cluster) {
    exists cs, events :: Run(cs, events) && cs[|events|] == c
  }

  lemma Extends(cs: seq<Cluster>, events: seq<Event>, event: Event)
    requires Run(cs, events) && Enabled(cs[|events|], event) && Ok(cs[|events|].nodes[Actor(event)])
    ensures Run(cs + [Do(cs[|events|], event)], events + [event])
  {
    hide Enabled, React, Ok, Init;
  }

  lemma Then(c: Cluster, event: Event)
    requires Reached(c) && Enabled(c, event) && Ok(c.nodes[Actor(event)])
    ensures Reached(Do(c, event))
  {
    hide Enabled, Ok, Do, React;
    var cs, events :| Run(cs, events) && cs[|events|] == c;
    Extends(cs, events, event);
    assert (cs + [Do(c, event)])[|events + [event]|] == Do(c, event);
  }

  function Asleep(): Cluster {
    Cluster(Voters, map id | id in Voters.voters :: Started(id).(role := Halted), {})
  }

  lemma {:induction false} TimesOut(c: Cluster, k: nat) returns (c': Cluster)
    requires Reached(c) && c.config == Voters && 1 in c.nodes && 2 in c.nodes && c.nodes[1] == Waiting(k) && c.nodes[2] == Started(2) && k <= 9
    ensures Reached(c') && c'.config == Voters && 1 in c'.nodes && 2 in c'.nodes && c'.nodes[1] == Waiting(9) && c'.nodes[2] == Started(2)
    decreases 9 - k
  {
    hide Ok, Tick, Reached;
    if k == 9 {
      c' := c;
    } else {
      Waits(k);
      Then(c, Expire(1, 10));
      c' := TimesOut(Do(c, Expire(1, 10)), k + 1);
    }
  }

  lemma {:induction false} NobodyAnswers(c: Cluster, k: nat, answer: Envelope) returns (c': Cluster)
    requires Reached(c) && 1 in c.nodes && Led(c.nodes[1], k) && k <= 18 && answer in c.sent
    ensures Reached(c') && 1 in c'.nodes && Led(c'.nodes[1], 18) && answer in c'.sent
    decreases 18 - k
  {
    hide Ok, Tick, Reached;
    if k == 18 {
      c' := c;
    } else {
      StaysQuiet(c.nodes[1], k);
      Then(c, Expire(1, 10));
      c' := NobodyAnswers(Do(c, Expire(1, 10)), k + 1, answer);
    }
  }

  lemma Elected() returns (c: Cluster, last: Index, commit: Index)
    ensures Reached(c) && c.config == Voters && 1 in c.nodes && 2 in c.nodes && c.nodes[2] == Voted() && Led(c.nodes[1], 0)
    ensures commit <= last && Envelope(1, 1, 2, Heartbeat(last, commit, 0)) in c.sent
  {
    hide Ok, Tick, Step, Start, Reached;
    var c0 := Asleep();
    AsleepReached();
    Starts(1);
    Starts(2);
    Stands();
    Votes();
    Wins();
    Then(c0, Restart(1, 0, Settings, 10));
    var c1 := Do(c0, Restart(1, 0, Settings, 10));
    Then(c1, Restart(2, 0, Settings, 10));
    var c2 := TimesOut(Do(c1, Restart(2, 0, Settings, 10)), 0);
    Then(c2, Expire(1, 10));
    var c3 := Do(c2, Expire(1, 10));
    var campaign, vote := Envelope(1, 1, 2, Campaign(0, 0)), Envelope(2, 1, 1, CampaignResponse(true));
    assert campaign in c3.sent;
    Then(c3, Deliver(campaign, 10));
    var c4 := Do(c3, Deliver(campaign, 10));
    assert vote in c4.sent;
    Then(c4, Deliver(vote, 10));
    c := Do(c4, Deliver(vote, 10));
    last, commit :| commit <= last && Envelope(1, 1, 2, Heartbeat(last, commit, 0)) in Step(Standing(), vote, 10).out;
  }

  lemma AsleepReached()
    ensures Reached(Asleep()) && Asleep().nodes.Keys == Voters.voters
    ensures forall id :: id in Voters.voters ==> Asleep().nodes[id] == Started(id).(role := Halted) && Ok(Asleep().nodes[id])
  {
    var events: seq<Event> := [];
    assert Run([Asleep()], events);
    assert [Asleep()][|events|] == Asleep();
  }

  /** The leader of this run panics on an answer to its own heartbeat. */
  lemma LateAnswerInARun() returns (cs: seq<Cluster>, events: seq<Event>)
    ensures Run(cs, events) && |events| > 0 && events[|events| - 1].Deliver?
    ensures 1 in cs[|events| - 1].nodes && Unexpected(cs[|events| - 1].nodes[1], events[|events| - 1].envelope)
    ensures !cs[|events| - 1].nodes[1].role.Halted? && 1 in cs[|events|].nodes && cs[|events|].nodes[1].role.Halted?
  {
    hide Ok, Tick, Step, Reached;
    var c, last, commit := Elected();
    var beat := Envelope(1, 1, 2, Heartbeat(last, commit, 0));
    Votes();
    Then(c, Deliver(beat, 10));
    var c1 := Do(c, Deliver(beat, 10));
    AnswersHeartbeat(last, commit);
    var m: Messages.Message :| m.HeartbeatResponse? && Envelope(2, 1, 1, m) in Step(Voted(), beat, 10).out;
    var answer := Envelope(2, 1, 1, m);
    var c2 := NobodyAnswers(c1, 0, answer);
    var n := c2.nodes[1];
    LosesQuorum(n);
    assert KnownSender(n, 2);
    LateAnswersPanic(n, 10, answer, 10);
    Then(c2, Expire(1, 10));
    var c3 := Do(c2, Expire(1, 10));
    assert c3.nodes[1] == Tick(n, 10).node && answer in c3.sent;
    LastStep(c3, answer, 10);
    cs, events := Ending(c3, Deliver(answer, 10));
  }

  lemma LastStep(c: Cluster, answer: Envelope, timeout: Ticks)
    requires 1 in c.nodes && Ok(c.nodes[1]) && answer in c.sent && answer.to == 1 && answer.from == 2
    requires Step(c.nodes[1], answer, timeout).node.role.Halted?
    ensures Enabled(c, Deliver(answer, timeout)) && Do(c, Deliver(answer, timeout)).nodes[1].role.Halted?
  {
    hide Ok, Step;
  }

  lemma Ending(c: Cluster, event: Event) returns (cs: seq<Cluster>, events: seq<Event>)
    requires Reached(c) && Enabled(c, event) && Ok(c.nodes[Actor(event)])
    ensures Run(cs, events) && |events| > 0 && cs[|events| - 1] == c && cs[|events|] == Do(c, event) && events[|events| - 1] == event
  {
    hide Enabled, Ok, Do;
    var cs0, events0 :| Run(cs0, events0) && cs0[|events0|] == c;
    Extends(cs0, events0, event);
    cs, events := cs0 + [Do(c, event)], events0 + [event];
  }
}
