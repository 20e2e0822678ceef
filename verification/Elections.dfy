/** Who votes for whom, and what a won election comes to (src/raft/node.rs:718-746, 914-976,
    1090-1372): the rules of standing, voting and winning, stated on what a node is handed
    and on what its log ends with. */
module Elections {
  import opened Basics
  import opened Configuration
  import opened Machine
  import opened LogSpec
  import opened Messages
  import opened RaftNode
  import opened NodeInvariant
  import Reconfiguration

  // ------------------------------------------------------------ the check

  /** A log is not ahead of one that ends with an entry of term `lastTerm` at `lastIndex`:
      the terms decide, and at the same term the lengths. */
  predicate NotAhead(log: seq<Entry>, lastIndex: Index, lastTerm: Term) {
    var t := if log == [] then 0 else log[|log| - 1].term;
    lastTerm > t || (lastTerm == t && lastIndex >= |log|)
  }

  /** What a log ends with, as its owner announces it. */
  function LastTermOf(log: seq<Entry>): Term {
    if log == [] then 0 else log[|log| - 1].term
  }

  lemma CheckIsNotAhead(n: Node, lastIndex: Index, lastTerm: Term)
    ensures UpToDate(n, lastIndex, lastTerm) <==> NotAhead(n.log, lastIndex, lastTerm)
  {
  }

  /** The message is for this node and comes from a voter or from the node itself. */
  predicate Reaches(n: Node, e: Envelope) {
    e.to == n.id && (e.from == n.id || e.from in n.membership.active.AllVoters())
  }

  function Others(n: Node): set<NodeId> {
    set p | p in n.membership.active.AllVoters() && p != n.id
  }

  // --------------------------------------------------------------- voting

  /** No other vote of that term stands. */
  predicate FreeToVote(n: Node, term: Term, candidate: NodeId) {
    term > n.term || n.vote == None || n.vote == Some(candidate)
  }

  /** A follower asked for its vote, and a node of any role asked in a later term, votes
      for the candidate exactly if its vote of that term is free and its log is not ahead.
      The vote is kept, and nothing of the log changes. */
  lemma VoteIff(n: Node, e: Envelope, timeout: Ticks)
    requires Ok(n) && Reaches(n, e) && e.message.Campaign? && 0 < e.term
    requires if e.term == n.term then n.role.Follower? else e.term > n.term && !n.role.Halted?
    ensures var r := Step(n, e, timeout);
      var granted := FreeToVote(n, e.term, e.from) && NotAhead(n.log, e.message.lastIndex, e.message.lastTerm);
      && r.out[Envelope(n.id, e.term, e.from, CampaignResponse(granted))] == 1
      && Envelope(n.id, e.term, e.from, CampaignResponse(!granted)) !in r.out
      && r.node.role.Follower? && r.node == n.(term := r.node.term, vote := r.node.vote, role := r.node.role)
      && r.node.term == e.term
      && r.node.vote == (if granted then Some(e.from) else if e.term > n.term then None else n.vote)
      && (e.term == n.term ==> r.node.role.leader == n.role.leader && r.node.role.forwarded == n.role.forwarded
                               && r.out == multiset{Envelope(n.id, e.term, e.from, CampaignResponse(granted))})
  {
    CheckIsNotAhead(n, e.message.lastIndex, e.message.lastTerm);
    hide UpToDate, NotAhead;
    if e.term == n.term {
      OwnTermVote(n, e, timeout);
    } else {
      LaterTermVote(n, e, timeout);
    }
  }

  lemma OwnTermVote(n: Node, e: Envelope, timeout: Ticks)
    requires Ok(n) && Reaches(n, e) && e.message.Campaign? && 0 < e.term == n.term && n.role.Follower?
    ensures Step(n, e, timeout) == OnCampaign(n.(role := n.role.(leaderSeen := if n.role.leader == Some(e.from) then 0 else n.role.leaderSeen)), e)
  {
    hide OnCampaign, Ok;
    assert n == n.(role := n.role.(leaderSeen := n.role.leaderSeen));
    assert Step(n, e, timeout) == FollowerAtTerm(n, e);
  }

  lemma NoVoteYet(out: multiset<Envelope>, e: Envelope)
    requires forall m :: m in out ==> m.message.ClientResponse?
    ensures e.message.CampaignResponse? ==> e !in out
  {
  }

  lemma {:induction false} TableOnlyAborts(n: Node, table: map<Index, Client>, lo: Index, hi: Index)
    requires lo <= hi
    ensures forall m :: m in AbortTable(n, table, lo, hi) ==> m.message.ClientResponse? && m.message.response == Failed(Abort)
    ensures forall i :: lo <= i < hi && i in table ==> Respond(n, table[i], Failed(Abort)) in AbortTable(n, table, lo, hi)
    decreases hi - lo
  {
    if lo < hi { TableOnlyAborts(n, table, lo + 1, hi); }
  }

  lemma {:induction false} ReadsOnlyAborts(n: Node, pendingReads: seq<PendingRead>)
    ensures forall m :: m in AbortReads(n, pendingReads) ==> m.message.ClientResponse? && m.message.response == Failed(Abort)
    ensures forall read :: read in pendingReads ==> Respond(n, read.client, Failed(Abort)) in AbortReads(n, pendingReads)
    decreases |pendingReads|
  {
    if pendingReads != [] { ReadsOnlyAborts(n, pendingReads[1..]); }
  }

  /** What a node of any role does first with a message of a later term. */
  function Deposed(n: Node, term: Term, timeout: Ticks): Outcome
    requires !n.role.Halted?
  {
    if n.role.Leader? then StepDown(n, term, timeout) else BecomeLeaderless(n, term, timeout)
  }

  /** It becomes a follower of that term that has not voted and knows no leader, and tells
      its clients that their requests are aborted. */
  lemma DeposedMeans(n: Node, term: Term, timeout: Ticks)
    requires Ok(n) && !n.role.Halted? && term > n.term
    ensures var r := Deposed(n, term, timeout);
      && r.node == n.(term := term, vote := None, role := Follower(None, 0, timeout, {})) && Ok(r.node)
      && forall m :: m in r.out ==> m.message.ClientResponse? && m.message.response == Failed(Abort)
  {
    if n.role.Leader? {
      var n1 := n.(term := term, vote := None);
      TableOnlyAborts(n1, n.role.writes, 0, |n.log| + 1);
      TableOnlyAborts(n1, n.role.membershipWrites, 0, |n.log| + 1);
      ReadsOnlyAborts(n1, n.role.pendingReads);
    }
    hide AbortTable, AbortReads, LeaderOk;
  }

  lemma LaterTermStep(n: Node, e: Envelope, timeout: Ticks)
    requires Ok(n) && Reaches(n, e) && e.term > n.term && !n.role.Halted?
    requires !e.message.PreCampaign? && !e.message.PreCampaignResponse?
    ensures Ok(Deposed(n, e.term, timeout).node) && Deposed(n, e.term, timeout).node.role.Follower?
    ensures var d := Deposed(n, e.term, timeout);
      Step(n, e, timeout) == FollowerAtTerm(d.node, e).Also(d.out)
  {
    DeposedMeans(n, e.term, timeout);
    hide FollowerAtTerm, LeaderAtTerm, CandidateAtTerm, AbortForwarded, AbortTable, AbortReads, Ok;
  }

  /** Whoever waits for this leader, at an index or for a read. */
  predicate WaitsFor(n: Node, client: Client)
    requires n.role.Leader?
  {
    || client in n.role.writes.Values || client in n.role.membershipWrites.Values
    || exists i :: 0 <= i < |n.role.pendingReads| && n.role.pendingReads[i].client == client
  }

  lemma LeaverAborts(n: Node, term: Term, timeout: Ticks, client: Client)
    requires Ok(n) && n.role.Leader? && term >= n.term && WaitsFor(n, client)
    ensures Envelope(n.id, term, client.from, ClientResponse(client.id, Failed(Abort))) in StepDown(n, term, timeout).out
  {
    var n1 := if term > n.term then n.(term := term, vote := None) else n;
    hide AbortTable, AbortReads;
    TableOnlyAborts(n1, n.role.writes, 0, |n.log| + 1);
    TableOnlyAborts(n1, n.role.membershipWrites, 0, |n.log| + 1);
    ReadsOnlyAborts(n1, n.role.pendingReads);
  }

  /** A leader that leaves office over a later term or a tick tells everyone who waits for it
      that the request is aborted. */
  lemma LeavingAborts(n: Node, e: Envelope, timeout: Ticks, client: Client)
    requires Ok(n) && n.role.Leader? && WaitsFor(n, client)
    ensures Reaches(n, e) && e.term > n.term && !e.message.PreCampaign? && !e.message.PreCampaignResponse? ==>
      Envelope(n.id, e.term, client.from, ClientResponse(client.id, Failed(Abort))) in Step(n, e, timeout).out
    ensures !Tick(n, timeout).node.role.Leader? ==>
      Envelope(n.id, n.term, client.from, ClientResponse(client.id, Failed(Abort))) in Tick(n, timeout).out
  {
    hide Step, Tick, FollowerAtTerm, Ok, WaitsFor, StepDown;
    if Reaches(n, e) && e.term > n.term && !e.message.PreCampaign? && !e.message.PreCampaignResponse? {
      LaterTermStep(n, e, timeout);
      LeaverAborts(n, e.term, timeout, client);
    }
    if !Tick(n, timeout).node.role.Leader? {
      LeavesLate(n, timeout, client);
    }
  }

  lemma LeavesLate(n: Node, timeout: Ticks, client: Client)
    requires Ok(n) && n.role.Leader? && WaitsFor(n, client) && !Tick(n, timeout).node.role.Leader?
    ensures Envelope(n.id, n.term, client.from, ClientResponse(client.id, Failed(Abort))) in Tick(n, timeout).out
  {
    hide StepDown, Active, ClusterSize, WaitsFor, Announce;
    var n1 := n.(role := n.role.(
        peerSeen := map p | p in n.role.peerSeen :: Min(n.role.peerSeen[p] + 1, MAX_TICKS),
        sinceHeartbeat := n.role.sinceHeartbeat + 1));
    assert Ok(n1);
    AnnouncedWaits(n, n1, client);
    var r := if n1.role.sinceHeartbeat >= n1.opts.heartbeatInterval then Announce(n1) else Stay(n1);
    assert Tick(n, timeout) == StepDown(r.node, r.node.term, timeout).Also(r.out);
    hide Tick, Ok;
    LeaverAborts(r.node, n.term, timeout, client);
  }

  lemma AnnouncedWaits(n: Node, n1: Node, client: Client)
    requires n.role.Leader? && n1.role.Leader? && Ok(n1) && WaitsFor(n, client)
    requires n1 == n.(role := n.role.(peerSeen := n1.role.peerSeen, sinceHeartbeat := n1.role.sinceHeartbeat))
    ensures WaitsFor(n1, client) && WaitsFor(Announce(n1).node, client)
    ensures var r := Announce(n1).node; r.id == n.id && r.term == n.term
  {
    hide Ok;
  }

  lemma LaterTermVote(n: Node, e: Envelope, timeout: Ticks)
    requires Ok(n) && Reaches(n, e) && e.message.Campaign? && e.term > n.term && !n.role.Halted?
    ensures var r := Step(n, e, timeout);
      var granted := UpToDate(n, e.message.lastIndex, e.message.lastTerm);
      && r.out[Envelope(n.id, e.term, e.from, CampaignResponse(granted))] == 1
      && Envelope(n.id, e.term, e.from, CampaignResponse(!granted)) !in r.out
      && r.node.role.Follower? && r.node == n.(term := e.term, vote := if granted then Some(e.from) else None, role := r.node.role)
  {
    var d := Deposed(n, e.term, timeout);
    DeposedMeans(n, e.term, timeout);
    LaterTermStep(n, e, timeout);
    assert FollowerAtTerm(d.node, e) == OnCampaign(d.node, e);
    assert UpToDate(d.node, e.message.lastIndex, e.message.lastTerm) == UpToDate(n, e.message.lastIndex, e.message.lastTerm);
    hide Step, Deposed, FollowerAtTerm, Ok, UpToDate;
    NoVoteYet(d.out, Envelope(n.id, e.term, e.from, CampaignResponse(true)));
    NoVoteYet(d.out, Envelope(n.id, e.term, e.from, CampaignResponse(false)));
  }

  /** Of any two nodes that may both vote in a later term, at least one gives its vote to
      the other: no two logs shut one another out. */
  lemma OneOfTwo(m: Node, n: Node, term: Term, e: Envelope, f: Envelope, timeout: Ticks)
    requires Ok(m) && Ok(n) && !m.role.Halted? && !n.role.Halted? && term > m.term && term > n.term
    requires e == Envelope(m.id, term, n.id, Campaign(|m.log|, LastTermOf(m.log))) && Reaches(n, e)
    requires f == Envelope(n.id, term, m.id, Campaign(|n.log|, LastTermOf(n.log))) && Reaches(m, f)
    ensures || Envelope(n.id, term, m.id, CampaignResponse(true)) in Step(n, e, timeout).out
            || Envelope(m.id, term, n.id, CampaignResponse(true)) in Step(m, f, timeout).out
  {
    hide Step, Ok;
    VoteIff(n, e, timeout);
    VoteIff(m, f, timeout);
    assert NotAhead(n.log, |m.log|, LastTermOf(m.log)) || NotAhead(m.log, |n.log|, LastTermOf(n.log));
    hide NotAhead;
  }

  // ------------------------------------------------------------- pre-vote

  /** A pre-vote is given exactly if the asked node does not lead, has not heard from a
      leader within its election timeout, has an earlier term than the one intended, and a
      log that is not ahead; the node itself is left as it was. */
  lemma PreVoteIff(n: Node, e: Envelope, timeout: Ticks)
    requires Ok(n) && Reaches(n, e) && e.message.PreCampaign? && !n.role.Halted?
    ensures var hearsLeader := n.role.Leader? || (n.role.Follower? && n.role.leader.Some? && n.role.leaderSeen < n.role.electionTimeout);
      var granted := !hearsLeader && e.term > n.term && NotAhead(n.log, e.message.lastIndex, e.message.lastTerm);
      Step(n, e, timeout) == Outcome(n, multiset{Envelope(n.id, n.term, e.from, PreCampaignResponse(granted))})
  {
    hide LeaderAtTerm, FollowerAtTerm, CandidateAtTerm, Ok;
  }

  /** A candidate and a leader turn down whoever else stands in their term. */
  lemma RivalRefused(n: Node, e: Envelope, timeout: Ticks)
    requires Ok(n) && Reaches(n, e) && e.message.Campaign? && e.term == n.term && (n.role.Candidate? || n.role.Leader?)
    ensures Step(n, e, timeout) == Outcome(n, multiset{Envelope(n.id, n.term, e.from, CampaignResponse(false))})
  {
    hide FollowerAtTerm, Ok;
  }

  // ------------------------------------------------------------- standing

  /** One copy of the message in this term for each of these nodes. */
  ghost predicate SentToAll(n: Node, out: multiset<Envelope>, term: Term, to: set<NodeId>, message: Message) {
    forall p :: p in to ==> out[Envelope(n.id, term, p, message)] == 1
  }

  /** Everything else among `out` is an answer. */
  ghost predicate NothingElseThan(n: Node, out: multiset<Envelope>, term: Term, to: set<NodeId>, message: Message) {
    forall e :: e in out ==> e.message.ClientResponse? || (e.to in to && e == Envelope(n.id, term, e.to, message))
  }

  /** The node stands for election in the next term, with its own vote, and asks all others
      for theirs. */
  ghost predicate Stood(n: Node, r: Outcome, timeout: Ticks) {
    && r.node.term == n.term + 1 && r.node.vote == Some(n.id)
    && r.node.role == Candidate({n.id}, 0, timeout, Election)
    && SentToAll(n, r.out, n.term + 1, Others(n), Campaign(|n.log|, LastTermOf(n.log)))
    && NothingElseThan(n, r.out, n.term + 1, Others(n), Campaign(|n.log|, LastTermOf(n.log)))
  }

  /** The node asks all others whether they would vote for it in the next term. */
  ghost predicate Sounded(n: Node, r: Outcome, timeout: Ticks) {
    && r.node.term == n.term && r.node.vote == n.vote
    && r.node.role == Candidate({n.id}, 0, timeout, PreVote)
    && SentToAll(n, r.out, n.term + 1, Others(n), PreCampaign(|n.log|, LastTermOf(n.log)))
    && NothingElseThan(n, r.out, n.term + 1, Others(n), PreCampaign(|n.log|, LastTermOf(n.log)))
  }

  /** With the pre-vote switched on and more than one voter, a candidacy begins with it. */
  ghost predicate Stands(n: Node, r: Outcome, timeout: Ticks) {
    && r.node.id == n.id && r.node.log == n.log && r.node.commit == n.commit && r.node.opts == n.opts
    && r.node.membership.active == n.membership.active
    && if n.opts.preVote && |n.membership.active.AllVoters()| != 1 then Sounded(n, r, timeout) else Stood(n, r, timeout)
  }

  lemma AskedAll(n: Node, term: Term, message: Message, out: multiset<Envelope>)
    requires out == multiset(set p | p in Peers(n) :: Envelope(n.id, term, p, message))
    ensures SentToAll(n, out, term, Others(n), message) && NothingElseThan(n, out, term, Others(n), message)
  {
    assert Peers(n) == Others(n);
    forall p | p in Others(n) ensures out[Envelope(n.id, term, p, message)] == 1 {
      assert Envelope(n.id, term, p, message) in (set q | q in Peers(n) :: Envelope(n.id, term, q, message));
    }
  }

  lemma StartElectionStands(n: Node, timeout: Ticks)
    ensures Stood(n, StartElection(n, timeout), timeout)
    ensures var c := StartElection(n, timeout).node; c == n.(term := c.term, vote := c.vote, role := c.role)
  {
    var r := StartElection(n, timeout);
    assert Others(r.node) == Others(n);
    AskedAll(r.node, n.term + 1, Campaign(|n.log|, LastTerm(n.log)), r.out);
    hide Others;
  }

  lemma StartPreVoteSounds(n: Node, timeout: Ticks)
    requires n.opts.preVote && |n.membership.active.AllVoters()| != 1
    ensures Sounded(n, StartPreVote(n, timeout), timeout)
    ensures StartPreVote(n, timeout).node == n.(role := StartPreVote(n, timeout).node.role)
  {
    var n1 := n.(role := Candidate({n.id}, 0, timeout, PreVote));
    AloneDecides(n.membership.active, n.id);
    var r := StartPreVote(n, timeout);
    assert r.node == n1;
    assert Others(n1) == Others(n);
    AskedAll(n1, n.term + 1, PreCampaign(|n.log|, LastTerm(n.log)), r.out);
    hide Others, StartPreVote;
  }

  lemma StartPreVoteStands(n: Node, timeout: Ticks)
    requires n.opts.preVote
    ensures Stands(n, StartPreVote(n, timeout), timeout)
    ensures StartPreVote(n, timeout).node.machine == n.machine
  {
    if |n.membership.active.AllVoters()| != 1 {
      StartPreVoteSounds(n, timeout);
    } else {
      var n1 := n.(role := Candidate({n.id}, 0, timeout, PreVote));
      StartElectionStands(n1, timeout);
      assert Others(n1) == Others(n);
      assert StartPreVote(n, timeout) == StartElection(n1, timeout);
    }
    hide StartPreVote, StartElection, Others, SentToAll, NothingElseThan;
  }

  lemma {:induction false} AppliedKeeps(n: Node)
    requires Indexed(n.log) && n.commit <= |n.log|
    ensures MaybeApply(n).membership.active == n.membership.active
    decreases n.commit - Applied(n.machine)
  {
    if Applied(n.machine) < n.commit {
      var entry := n.log[Applied(n.machine)];
      AppliedKeeps(n.(
        machine := Apply(n.machine, entry).0,
        membership := if entry.membership.Some? then n.membership.OnCommit(entry.membership.value) else n.membership));
    }
  }

  /** What a follower comes to that stands for election. */
  ghost predicate StandsFrom(n: Node, r: Outcome, timeout: Ticks)
    requires n.role.Follower?
  {
    && Stands(n, r, timeout) && Applied(r.node.machine) == n.commit
    && forall id :: id in n.role.forwarded ==> Envelope(n.id, n.term, n.id, ClientResponse(id, Failed(Abort))) in r.out
  }

  /** A follower stands exactly when a tick completes its election timeout without a word
      from a leader; until then the tick is only counted. */
  lemma FollowerTimesOut(n: Node, timeout: Ticks)
    requires Ok(n) && n.role.Follower?
    ensures var r := Tick(n, timeout);
      if n.role.leaderSeen + 1 < n.role.electionTimeout then
        r.node == n.(role := n.role.(leaderSeen := n.role.leaderSeen + 1)) && r.out == multiset{}
      else StandsFrom(n, r, timeout)
  {
    hide LeaderOk, StandForElection, StandsFrom, MaybeApply;
    if n.role.leaderSeen + 1 >= n.role.electionTimeout {
      var n1 := n.(role := n.role.(leaderSeen := n.role.leaderSeen + 1));
      assert Tick(n, timeout) == StandForElection(n1, true, timeout);
      AppliedKeeps(n1);
      StoodAfter(n1, timeout);
      SameStand(n, n1, StandForElection(n1, true, timeout), timeout);
    }
  }

  lemma SameStand(n: Node, n1: Node, r: Outcome, timeout: Ticks)
    requires n.role.Follower? && n1.role.Follower? && n1 == n.(role := n1.role) && n1.role.forwarded == n.role.forwarded
    requires StandsFrom(n1, r, timeout)
    ensures StandsFrom(n, r, timeout)
  {
    assert Others(n1) == Others(n);
    hide Others;
  }

  lemma StoodAfter(n: Node, timeout: Ticks)
    requires Ok(n) && n.role.Follower? && MaybeApply(n).membership.active == n.membership.active
    ensures StandsFrom(n, StandForElection(n, true, timeout), timeout)
  {
    hide MaybeApply, AbortForwarded, LeaderOk, Others, SentToAll, NothingElseThan;
    var n1, out := MaybeApply(n), AbortForwarded(n);
    var r := if n.opts.preVote then StartPreVote(n1, timeout) else StartElection(n1, timeout);
    assert StandForElection(n, true, timeout) == r.Also(out);
    StandsApplied(n, n1, r, timeout);
    AbortsEach(n);
    StandsAlso(n, r, out, timeout);
  }

  lemma StandsApplied(n: Node, n1: Node, r: Outcome, timeout: Ticks)
    requires n1 == n.(machine := n1.machine, membership := n1.membership) && n1.membership.active == n.membership.active
    requires r == if n.opts.preVote then StartPreVote(n1, timeout) else StartElection(n1, timeout)
    ensures Stands(n, r, timeout) && r.node.machine == n1.machine
  {
    assert Others(n1) == Others(n);
    if n.opts.preVote { StartPreVoteStands(n1, timeout); } else { StartElectionStands(n1, timeout); }
    hide StartPreVote, StartElection, Others;
  }

  lemma AbortsEach(n: Node)
    requires n.role.Follower?
    ensures forall m :: m in AbortForwarded(n) ==> m.message.ClientResponse?
    ensures forall id :: id in n.role.forwarded ==> Envelope(n.id, n.term, n.id, ClientResponse(id, Failed(Abort))) in AbortForwarded(n)
  {
  }

  lemma StandsAlso(n: Node, r: Outcome, out: multiset<Envelope>, timeout: Ticks)
    requires Stands(n, r, timeout) && forall m :: m in out ==> m.message.ClientResponse?
    ensures Stands(n, r.Also(out), timeout)
  {
  }

  /** A candidate whose election has taken its timeout stands anew; until then the tick is
      only counted. */
  lemma CandidateTimesOut(n: Node, timeout: Ticks)
    requires Ok(n) && n.role.Candidate?
    ensures var r := Tick(n, timeout);
      if n.role.electionDuration + 1 < n.role.electionTimeout then
        r.node == n.(role := n.role.(electionDuration := n.role.electionDuration + 1)) && r.out == multiset{}
      else Stands(n, r, timeout) && r.node.machine == n.machine
  {
    hide LeaderOk, Stands, StartPreVote, StartElection;
    var n1 := n.(role := n.role.(electionDuration := n.role.electionDuration + 1));
    var r := if n.opts.preVote then StartPreVote(n1, timeout) else StartElection(n1, timeout);
    if n.role.electionDuration + 1 >= n.role.electionTimeout {
      assert Tick(n, timeout) == r;
      StandsInRole(n, n1, r, timeout);
    }
  }

  lemma StandsInRole(n: Node, n1: Node, r: Outcome, timeout: Ticks)
    requires n1 == n.(role := n1.role) && r == if n.opts.preVote then StartPreVote(n1, timeout) else StartElection(n1, timeout)
    ensures Stands(n, r, timeout) && r.node.machine == n.machine
  {
    assert Others(n1) == Others(n);
    if n.opts.preVote { StartPreVoteStands(n1, timeout); } else { StartElectionStands(n1, timeout); }
    hide StartPreVote, StartElection, Others, SentToAll, NothingElseThan;
  }

  // -------------------------------------------------------------- winning

  function NoOp(n: Node): Entry {
    Entry(|n.log| + 1, n.term, None, None)
  }

  /** What an elected leader sends the others: its no-op, and a heartbeat. */
  predicate Greeting(n: Node, e: Envelope) {
    && e.from == n.id && e.term == n.term && e.to in Others(n)
    && (e.message == Append(|n.log|, LastTermOf(n.log), [NoOp(n)]) || e.message == Heartbeat(|n.log| + 1, n.commit, 0))
  }

  /** The candidate n leads: a no-op of the term ends its log, it takes every other voter to
      hold what precedes that, and it has greeted them all. */
  ghost predicate TakesOffice(n: Node, r: Outcome) {
    && r.node == n.(
         log := n.log + [NoOp(n)],
         role := Leader(map p | p in Others(n) :: Progress(0, |n.log| + 2, 0), map[], map[], [], 0, 0, map p | p in Others(n) :: 0))
    && (forall e :: Greeting(n, e) ==> r.out[e] == 1)
    && forall e :: e in r.out ==> Greeting(n, e)
  }

  /** Who gets a new entry: the others that were waiting for exactly that index. */
  function Waiting(n: Node): set<NodeId>
    requires n.role.Leader?
  {
    set p | p in n.role.progress && n.role.progress[p].nextIndex == |n.log| + 1
  }

  /** The progress of the others once they have been sent it. */
  function Moved(n: Node): map<NodeId, Progress>
    requires n.role.Leader?
  {
    map p | p in n.role.progress ::
      if n.role.progress[p].nextIndex == |n.log| + 1 then n.role.progress[p].(nextIndex := |n.log| + 2) else n.role.progress[p]
  }

  /** A new entry goes to whoever has been sent all that precedes it, and to no one else. */
  lemma OfferMeans(n: Node, n1: Node, entry: Entry)
    requires n.role.Leader? && n1 == n.(log := n.log + [entry]) && LeaderOk(n1) && n.opts.maxAppendEntries >= 1
    ensures Offer(n1).node == n1.(role := n1.role.(progress := Moved(n)))
    ensures Offer(n1).out == multiset(set p | p in Waiting(n) :: Envelope(n.id, n.term, p, Append(|n.log|, LastTermOf(n.log), [entry])))
  {
    assert n1.log[|n.log|..|n.log| + 1] == [entry];
    assert TermAt(n1.log, |n.log|) == LastTermOf(n.log);
    forall p | p in Waiting(n)
      ensures NextAppend(n1, p, n1.role.progress[p], false)
        == (n.role.progress[p].(nextIndex := |n.log| + 2), Some(Envelope(n.id, n.term, p, Append(|n.log|, LastTermOf(n.log), [entry])))) {}
    var waiting := set p | p in n1.role.progress && n1.role.progress[p].nextIndex == |n1.log|;
    assert waiting == Waiting(n);
    var sent := set p | p in waiting && NextAppend(n1, p, n1.role.progress[p], false).1.Some? ::
      NextAppend(n1, p, n1.role.progress[p], false).1.value;
    assert Offer(n1).node.role.progress == Moved(n);
    assert sent == set p | p in Waiting(n) :: Envelope(n.id, n.term, p, Append(|n.log|, LastTermOf(n.log), [entry]));
    hide NextAppend, LeaderOk;
  }

  lemma NoOpAppended(n: Node)
    requires Ok(n) && n.role.Candidate? && n.term > 0 && n.opts.maxAppendEntries >= 1
    ensures CanAppend(NewLeader(n)) && Propose(NewLeader(n), None).node.role.Leader? && Ok(Propose(NewLeader(n), None).node)
    ensures Propose(NewLeader(n), None).node == n.(
      log := n.log + [NoOp(n)],
      role := Leader(map p | p in Others(n) :: Progress(0, |n.log| + 2, 0), map[], map[], [], 0, 0, map p | p in Others(n) :: 0))
    ensures Propose(NewLeader(n), None).out
      == multiset(set p | p in Others(n) :: Envelope(n.id, n.term, p, Append(|n.log|, LastTermOf(n.log), [NoOp(n)])))
  {
    assert Peers(n) == Others(n);
    var n1 := NewLeader(n);
    OfferMeans(n1, AppendEntry(n1, None, None), NoOp(n));
    assert Waiting(n1) == Others(n);
    assert Moved(n1) == map p | p in Others(n) :: Progress(0, |n.log| + 2, 0);
    hide Offer;
  }

  /** Nothing is committed yet: as long as no answer has come, the leader alone holds it. */
  lemma NothingCommitted(n: Node)
    requires n.role.Leader? && Ok(n) && !n.membership.active.HasQuorum({n.id}) && forall p :: p in n.role.progress ==> n.role.progress[p].matchIndex == 0
    ensures CommitAndApply(n) == CommitOutcome(Stay(n), false)
  {
    assert forall i :: i > 0 ==> Holders(n, i) == {n.id};
    hide Holders;
  }

  lemma WonOffice(n: Node)
    requires Ok(n) && n.role.Candidate? && n.role.phase == Election && 0 < n.term && n.vote == Some(n.id)
    requires n.opts.maxAppendEntries >= 1 && !n.membership.active.HasQuorum({n.id})
    ensures TakesOffice(n, WinElection(n))
  {
    hide CommitAndApply, Propose, NewLeader, LeaderOk, NoOp, LastTermOf;
    NoOpAppended(n);
    var n1 := Propose(NewLeader(n), None).node;
    NothingCommitted(n1);
    var append, beat := Append(|n.log|, LastTermOf(n.log), [NoOp(n)]), Heartbeat(|n.log| + 1, n.commit, 0);
    assert Peers(n1) == Others(n);
    assert WinElection(n).node == n1;
    assert WinElection(n).out == multiset(set p | p in Others(n) :: Envelope(n.id, n.term, p, append))
      + multiset(set p | p in Others(n) :: Envelope(n.id, n.term, p, beat));
    GreetsAll(n, append, beat);
    hide WinElection;
  }

  lemma GreetsAll(n: Node, append: Message, beat: Message)
    requires append == Append(|n.log|, LastTermOf(n.log), [NoOp(n)]) && beat == Heartbeat(|n.log| + 1, n.commit, 0)
    ensures var out := multiset(set p | p in Others(n) :: Envelope(n.id, n.term, p, append))
                     + multiset(set p | p in Others(n) :: Envelope(n.id, n.term, p, beat));
      (forall e :: Greeting(n, e) ==> out[e] == 1) && forall e :: e in out ==> Greeting(n, e)
  {
    var a, b := set p | p in Others(n) :: Envelope(n.id, n.term, p, append), set p | p in Others(n) :: Envelope(n.id, n.term, p, beat);
    forall e | Greeting(n, e) ensures (multiset(a) + multiset(b))[e] == 1 {
      assert e == Envelope(n.id, n.term, e.to, append) || e == Envelope(n.id, n.term, e.to, beat);
    }
  }

  /** A vote of the term is counted once its sender is a voter, and with a majority the
      candidate takes office. A refusal changes nothing. */
  lemma VoteCounts(n: Node, e: Envelope, timeout: Ticks)
    requires Ok(n) && n.role.Candidate? && n.role.phase == Election && 0 < n.term && n.vote == Some(n.id) && n.opts.maxAppendEntries >= 1
    requires Reaches(n, e) && e.term == n.term && e.message.CampaignResponse? && e.from in n.membership.active.AllVoters()
    requires n.membership.active.AllVoters() != {n.id}
    ensures var n1 := n.(role := n.role.(votes := n.role.votes + {e.from}));
      if !e.message.vote then Step(n, e, timeout) == Outcome(n, multiset{})
      else if !Majority(n.membership.active, n.role.votes + {e.from}) then Step(n, e, timeout) == Outcome(n1, multiset{})
      else TakesOffice(n, Step(n, e, timeout))
  {
    hide WinElection, FollowerAtTerm, Ok, TakesOffice;
    JointNeedsBoth(n.membership.active, n.role.votes + {e.from});
    AloneDecides(n.membership.active, n.id);
    var n1 := n.(role := n.role.(votes := n.role.votes + {e.from}));
    if e.message.vote && Majority(n.membership.active, n.role.votes + {e.from}) {
      assert Step(n, e, timeout) == WinElection(n1);
      WonOffice(n1);
      OfficeOf(n, n1, WinElection(n1));
    }
  }

  lemma OfficeOf(n: Node, n1: Node, r: Outcome)
    requires n1 == n.(role := n1.role) && TakesOffice(n1, r)
    ensures TakesOffice(n, r)
  {
    assert Others(n1) == Others(n);
    hide Others;
    forall e ensures Greeting(n1, e) == Greeting(n, e) {}
  }

  /** A pre-vote is counted in the same way; with a majority the candidate stands. */
  lemma PreVoteCounts(n: Node, e: Envelope, timeout: Ticks)
    requires Ok(n) && n.role.Candidate? && n.role.phase == PreVote && e.message.PreCampaignResponse?
    requires Reaches(n, e) && e.from in n.membership.active.AllVoters() && n.membership.active.AllVoters() != {n.id}
    ensures var n1 := n.(role := n.role.(votes := n.role.votes + {e.from}));
      var r := Step(n, e, timeout);
      if !e.message.vote then r == Outcome(n, multiset{})
      else if !Majority(n.membership.active, n.role.votes + {e.from}) then r == Outcome(n1, multiset{})
      else Stood(n, r, timeout) && r.node == n.(term := r.node.term, vote := r.node.vote, role := r.node.role)
  {
    hide WinElection, FollowerAtTerm, Ok, StartElection;
    JointNeedsBoth(n.membership.active, n.role.votes + {e.from});
    AloneDecides(n.membership.active, n.id);
    var n1 := n.(role := n.role.(votes := n.role.votes + {e.from}));
    if e.message.vote && Majority(n.membership.active, n.role.votes + {e.from}) {
      StartElectionStands(n1, timeout);
      assert Others(n1) == Others(n);
      assert Step(n, e, timeout) == StartElection(n1, timeout);
    }
  }

  /** Answers of the other phase of an election come too late or too early to count. */
  lemma OtherPhase(n: Node, e: Envelope, timeout: Ticks)
    requires Ok(n) && n.role.Candidate? && Reaches(n, e)
    requires || (n.role.phase == PreVote && e.message.CampaignResponse? && e.term == n.term)
             || (n.role.phase == Election && e.message.PreCampaignResponse?)
    ensures Step(n, e, timeout) == Outcome(n, multiset{})
  {
    hide WinElection, FollowerAtTerm, Ok, StartElection;
  }

  // ------------------------------------------------ an election as a whole

  /** The candidate after it has been handed the votes of these nodes, one by one. */
  function Polled(n: Node, from: seq<NodeId>, timeout: Ticks): (r: Node)
    requires Ok(n)
    ensures Ok(r)
    decreases |from|
  {
    if from == [] then n
    else
      var n1 := Polled(n, from[..|from| - 1], timeout);
      StepKeepsOk(n1, Vote(n, from[|from| - 1]), timeout);
      Step(n1, Vote(n, from[|from| - 1]), timeout).node
  }

  function Vote(n: Node, from: NodeId): Envelope {
    Envelope(from, n.term, n.id, CampaignResponse(true))
  }

  function Voters(from: seq<NodeId>): set<NodeId> {
    set p | p in from
  }

  /** The votes of any majority, in any order and with repetitions, make the candidate the
      leader of its term, with its no-op behind an unchanged log; short of a majority it
      goes on collecting. */
  lemma {:induction false} MajorityElects(n: Node, from: seq<NodeId>, timeout: Ticks)
    requires Ok(n) && n.role.Candidate? && n.role.phase == Election && 0 < n.term && n.vote == Some(n.id) && n.opts.maxAppendEntries >= 1
    requires n.role.votes == {n.id} && n.membership.active.AllVoters() != {n.id}
    requires forall p :: p in from ==> p in n.membership.active.AllVoters()
    ensures var r := Polled(n, from, timeout);
      if Majority(n.membership.active, {n.id} + Voters(from)) then
        r.role.Leader? && r == n.(log := n.log + [NoOp(n)], role := r.role)
      else r == n.(role := n.role.(votes := {n.id} + Voters(from)))
    decreases |from|
  {
    hide Step, Ok, Majority;
    if from == [] {
      AloneDecides(n.membership.active, n.id);
      JointNeedsBoth(n.membership.active, {n.id});
      assert {n.id} + Voters(from) == {n.id};
    } else {
      var k := |from| - 1;
      var n1 := Polled(n, from[..k], timeout);
      MajorityElects(n, from[..k], timeout);
      assert from == from[..k] + [from[k]];
      assert Voters(from) == Voters(from[..k]) + {from[k]};
      assert {n.id} + Voters(from) == {n.id} + Voters(from[..k]) + {from[k]};
      if n1.role.Leader? {
        MajorityGrows(n.membership.active, {n.id} + Voters(from[..k]), {n.id} + Voters(from));
        LeaderIgnoresVote(n1, Vote(n, from[k]), timeout);
      } else {
        VoteCounts(n1, Vote(n, from[k]), timeout);
      }
    }
  }

  lemma MajorityGrows(c: MembershipEntry, a: set<NodeId>, b: set<NodeId>)
    requires a <= b && Majority(c, a)
    ensures Majority(c, b)
  {
    JointNeedsBoth(c, a);
    JointNeedsBoth(c, b);
    QuorumMonotone(c, a, b);
  }

  lemma LeaderIgnoresVote(n: Node, e: Envelope, timeout: Ticks)
    requires Ok(n) && n.role.Leader? && Reaches(n, e) && e.term == n.term && e.message.CampaignResponse?
    ensures Step(n, e, timeout) == Outcome(n, multiset{})
  {
    hide Ok;
  }

  /** A candidate whose log no one of a majority is ahead of gets itself elected: whatever
      roles these nodes are in, in earlier terms, each gives it the vote it asks for, and
      with those votes it leads. So a cluster with a majority of its nodes up can elect. */
  lemma CanElect(n: Node, from: seq<NodeId>, nodes: map<NodeId, Node>, timeout: Ticks)
    requires Ok(n) && n.role.Candidate? && n.role.phase == Election && 0 < n.term && n.vote == Some(n.id) && n.opts.maxAppendEntries >= 1
    requires n.role.votes == {n.id} && n.membership.active.AllVoters() != {n.id} && Majority(n.membership.active, {n.id} + Voters(from))
    requires forall p :: p in from ==> p in nodes && p in n.membership.active.AllVoters()
    requires forall p :: p in from ==> var m := nodes[p];
      Ok(m) && m.id == p && !m.role.Halted? && m.term < n.term && n.id in m.membership.active.AllVoters()
      && NotAhead(m.log, |n.log|, LastTermOf(n.log))
    ensures forall p :: p in from ==>
      Vote(n, p) in Step(nodes[p], Envelope(n.id, n.term, p, Campaign(|n.log|, LastTermOf(n.log))), timeout).out
    ensures var r := Polled(n, from, timeout); r.role.Leader? && r.term == n.term && r.log == n.log + [NoOp(n)]
  {
    hide Step, Ok, Majority, NotAhead, Polled;
    MajorityElects(n, from, timeout);
    forall p | p in from
      ensures Vote(n, p) in Step(nodes[p], Envelope(n.id, n.term, p, Campaign(|n.log|, LastTermOf(n.log))), timeout).out
    {
      VoteIff(nodes[p], Envelope(n.id, n.term, p, Campaign(|n.log|, LastTermOf(n.log))), timeout);
    }
  }

  // ---------------------------------------------------- terms and leaders

  /** A node takes no notice of strangers, nor of anything but pre-votes from an earlier
      term; what was meant for another node stops it. */
  lemma Disregarded(n: Node, e: Envelope, timeout: Ticks)
    requires Ok(n)
    ensures e.to != n.id ==> Step(n, e, timeout) == Outcome(n.(role := Halted), multiset{})
    ensures e.to == n.id && e.from != n.id && e.from !in n.membership.active.AllVoters() ==> Step(n, e, timeout) == Outcome(n, multiset{})
    ensures e.to == n.id && e.term < n.term && !e.message.PreCampaign? && !e.message.PreCampaignResponse? ==>
      Step(n, e, timeout) == Outcome(n, multiset{})
  {
    hide LeaderAtTerm, FollowerAtTerm, CandidateAtTerm, WinElection, Ok;
  }

  predicate FromLeader(m: Message) {
    m.Heartbeat? || m.Append? || m.Read?
  }

  /** A follower does not change its leader within a term. */
  lemma OneLeader(n: Node, e: Envelope, timeout: Ticks)
    requires Ok(n) && n.role.Follower? && Reaches(n, e) && e.term == n.term && FromLeader(e.message)
    requires n.role.leader.Some? && n.role.leader != Some(e.from) && !Step(n, e, timeout).node.role.Halted?
    ensures Step(n, e, timeout) == Outcome(n, multiset{})
  {
    hide Splice, MaybeApply, AdoptMembership, LeaderOk;
  }

  /** The node follows the sender now, in the message's term, with its count of silent
      ticks at nothing; what it had forwarded to that leader stays forwarded. */
  predicate FollowsNow(n: Node, r: Node, e: Envelope, timeout: Ticks) {
    && r.term == e.term && r.vote == (if e.term > n.term then None else n.vote)
    && r.role == (if e.term == n.term && n.role.Follower?
                  then Follower(Some(e.from), 0, n.role.electionTimeout, if n.role.leader == Some(e.from) then n.role.forwarded else {})
                  else Follower(Some(e.from), 0, timeout, {}))
  }

  /** Whoever hears from a leader of its term or a later one follows it, unless it leads
      that term itself or follows another leader of it. */
  lemma LeaderFollowed(n: Node, e: Envelope, timeout: Ticks)
    requires Ok(n) && Reaches(n, e) && FromLeader(e.message) && !n.role.Halted? && !Step(n, e, timeout).node.role.Halted?
    requires if e.term == n.term then !n.role.Leader? && (n.role.Follower? ==> n.role.leader == None || n.role.leader == Some(e.from))
             else e.term > n.term
    ensures FollowsNow(n, Step(n, e, timeout).node, e, timeout)
  {
    hide Step, FollowerAtTerm, Ok;
    if e.term > n.term {
      DeposedMeans(n, e.term, timeout);
      LaterTermStep(n, e, timeout);
      FollowedAtTerm(Deposed(n, e.term, timeout).node, e);
    } else if n.role.Follower? {
      StepAtTerm(n, e, timeout);
      FollowedAtTerm(n, e);
    } else {
      LoserOk(n, e.from, timeout);
      LoserSteps(n, e, timeout);
      FollowedAtTerm(LoseElection(n, e.from, timeout), e);
    }
  }

  lemma StepAtTerm(n: Node, e: Envelope, timeout: Ticks)
    requires Ok(n) && Reaches(n, e) && e.term == n.term && n.role.Follower? && !IsPreVote(e.message)
    ensures Step(n, e, timeout) == FollowerAtTerm(n, e)
  {
    hide FollowerAtTerm, Ok;
  }

  lemma LoserOk(n: Node, leader: NodeId, timeout: Ticks)
    requires Ok(n)
    ensures Ok(LoseElection(n, leader, timeout))
  {
  }

  lemma LoserSteps(n: Node, e: Envelope, timeout: Ticks)
    requires Ok(n) && Reaches(n, e) && e.term == n.term && n.role.Candidate? && FromLeader(e.message)
    requires Ok(LoseElection(n, e.from, timeout))
    ensures Step(n, e, timeout) == FollowerAtTerm(LoseElection(n, e.from, timeout), e)
  {
    hide FollowerAtTerm, Ok;
  }

  lemma FollowedAtTerm(n: Node, e: Envelope)
    requires Ok(n) && n.role.Follower? && e.term == n.term && FromLeader(e.message)
    requires n.role.leader == None || n.role.leader == Some(e.from)
    requires !FollowerAtTerm(n, e).node.role.Halted?
    ensures var r := FollowerAtTerm(n, e).node;
      && r.term == n.term && r.vote == n.vote
      && r.role == Follower(Some(e.from), 0, n.role.electionTimeout, if n.role.leader == Some(e.from) then n.role.forwarded else {})
  {
    var n1 := n.(role := n.role.(leaderSeen := if n.role.leader == Some(e.from) then 0 else n.role.leaderSeen));
    assert n == n.(role := n.role.(leaderSeen := n.role.leaderSeen));
    SeenOk(n);
    Adopts(n1, e.from);
    hide OnHeartbeat, OnAppend, OnRead, Follow, Ok;
    RoleAfter(n1, e);
  }

  lemma Adopts(n: Node, from: NodeId)
    requires n.role.Follower? && (n.role.leader == None || n.role.leader == Some(from))
    ensures Follow(n, from).Some?
    ensures var r := Follow(n, from).value.node;
      var seen, forwarded := if n.role.leader == None then 0 else n.role.leaderSeen, if n.role.leader == None then {} else n.role.forwarded;
      r.role.Halted? || r == n.(role := Follower(Some(from), seen, n.role.electionTimeout, forwarded))
  {
  }

  /** A leader's message leaves role, term and vote as following the sender does. */
  lemma RoleAfter(n: Node, e: Envelope)
    requires Ok(n) && n.role.Follower? && FromLeader(e.message) && Follow(n, e.from).Some?
    requires var f := Follow(n, e.from).value.node; f.role.Halted? || f == n.(role := f.role)
    ensures var f := Follow(n, e.from).value.node;
      var r := (match e.message
                case Heartbeat(_, _, _) => OnHeartbeat(n, e)
                case Append(_, _, _) => OnAppend(n, e)
                case _ => OnRead(n, e)).node;
      r.role.Halted? || (r.role == f.role && r.term == n.term && r.vote == n.vote)
  {
    hide Follow, Splice, MaybeApply, AdoptMembership, LeaderOk, Has;
  }

  // --------------------------------------------------------- a lone voter

  /** With itself as the only voter, a candidate that leads has committed and applied its
      whole log, the no-op included. */
  lemma AloneTakesOffice(n: Node)
    requires Ok(n) && n.role.Candidate? && n.role.phase == Election && 0 < n.term && n.vote == Some(n.id)
    requires n.membership.active == Simple(Membership({n.id}))
    ensures var r := WinElection(n).node;
      && r.role.Leader? && r.term == n.term && n.log + [NoOp(n)] <= r.log
      && r.commit == Applied(r.machine) == |n.log| + 1
  {
    hide CommitAndApply, Propose, NewLeader, LeaderOk, Reconfiguration.Extended, CommitTarget;
    Reconfiguration.NoOpFrame(n);
    var n1 := Propose(NewLeader(n), None).node;
    AloneCommits(n, n1);
    Reconfiguration.CommitFrame(n1);
    Reconfiguration.ExtendedHolds(n1.log, n1.term, Reconfiguration.Proposals(Reconfiguration.ToApply(n1)), 0);
  }

  lemma AloneCommits(n: Node, n1: Node)
    requires n1.role.Leader? && Ok(n1) && n1.id == n.id && n1.membership == n.membership && n1.term == n.term
    requires n1.log == n.log + [NoOp(n)] && n1.commit <= |n.log| && n.membership.active == Simple(Membership({n.id}))
    ensures CommitTarget(n1, |n1.log|) == |n.log| + 1
  {
    AloneDecides(n.membership.active, n.id);
    QuorumMonotone(n.membership.active, {n.id}, Holders(n1, |n1.log|));
    assert Committable(n1, |n1.log|);
  }

  /** A lone voter that wins its pre-vote wins the election with it. */
  lemma PreVoteWonAlone(n: Node, e: Envelope, timeout: Ticks)
    requires Ok(n) && n.role.Candidate? && n.role.phase == PreVote && n.membership.active == Simple(Membership({n.id}))
    requires Reaches(n, e) && e.message == PreCampaignResponse(true)
    ensures var r := Step(n, e, timeout).node;
      && r.role.Leader? && r.term == n.term + 1 && n.log + [Entry(|n.log| + 1, n.term + 1, None, None)] <= r.log
      && r.commit == Applied(r.machine) == |n.log| + 1
  {
    hide WinElection, FollowerAtTerm, LeaderOk, StartElection;
    AloneDecides(n.membership.active, n.id);
    var n1 := n.(role := n.role.(votes := n.role.votes + {n.id}));
    QuorumMonotone(n.membership.active, {n.id}, n1.role.votes);
    StartElectionStands(n1, timeout);
    AloneTakesOffice(StartElection(n1, timeout).node);
    assert Step(n, e, timeout) == WinElection(StartElection(n1, timeout).node).Also(StartElection(n1, timeout).out);
  }

  /** What a node makes of its disk: it has applied what is committed there, and follows no
      one; a lone voter leads at once, in the next term, with everything committed. */
  lemma StartMeans(id: NodeId, peers: set<NodeId>, term: Term, vote: Option<NodeId>, log: seq<Entry>, commit: Index, opts: Options, timeout: Ticks)
    requires Indexed(log) && commit <= |log|
    ensures var r := Start(id, peers, term, vote, log, commit, opts, timeout);
      var active := RestoreMembership(Bootstrap(id, peers), log, commit).active;
      && (|active.AllVoters()| != 1 ==>
            && r.out == multiset{} && Applied(r.node.machine) == commit && r.node.membership.active == active
            && r.node == Node(id, r.node.membership, term, vote, log, commit, r.node.machine, opts, Follower(None, 0, timeout, {})))
      && (active == Simple(Membership({id})) ==>
            && r.node.role.Leader? && r.node.term == term + 1 && log + [Entry(|log| + 1, term + 1, None, None)] <= r.node.log
            && r.node.commit == Applied(r.node.machine) == |log| + 1)
  {
    var n := Found(id, peers, term, vote, log, commit, opts, timeout);
    hide RestoreMembership, WinElection, MaybeApply, Indexed, StandForElection, Start;
    AppliedKeeps(n);
    if |n.membership.active.AllVoters()| == 1 {
      StartsAlone(n, peers, timeout);
    } else {
      StartsIdle(n, peers, timeout);
    }
  }

  function Found(id: NodeId, peers: set<NodeId>, term: Term, vote: Option<NodeId>, log: seq<Entry>, commit: Index, opts: Options, timeout: Ticks): Node {
    Node(id, RestoreMembership(Bootstrap(id, peers), log, commit), term, vote, log, commit, EmptyState, opts, Follower(None, 0, timeout, {}))
  }

  lemma StartsIdle(n: Node, peers: set<NodeId>, timeout: Ticks)
    requires Indexed(n.log) && n.commit <= |n.log| && n == Found(n.id, peers, n.term, n.vote, n.log, n.commit, n.opts, timeout)
    requires MaybeApply(n).membership.active == n.membership.active && |n.membership.active.AllVoters()| != 1
    ensures Start(n.id, peers, n.term, n.vote, n.log, n.commit, n.opts, timeout) == Outcome(MaybeApply(n), multiset{})
  {
    hide RestoreMembership, WinElection, MaybeApply, Indexed, StandForElection;
  }

  lemma StartsAlone(n: Node, peers: set<NodeId>, timeout: Ticks)
    requires Indexed(n.log) && n.commit <= |n.log| && n == Found(n.id, peers, n.term, n.vote, n.log, n.commit, n.opts, timeout)
    requires MaybeApply(n).membership.active == n.membership.active && |n.membership.active.AllVoters()| == 1
    ensures var r := Start(n.id, peers, n.term, n.vote, n.log, n.commit, n.opts, timeout).node;
      n.membership.active == Simple(Membership({n.id})) ==>
        && r.role.Leader? && r.term == n.term + 1 && n.log + [Entry(|n.log| + 1, n.term + 1, None, None)] <= r.log
        && r.commit == Applied(r.machine) == |n.log| + 1
  {
    hide RestoreMembership, WinElection, MaybeApply, Indexed, StartElection;
    var n1 := MaybeApply(n);
    AppliedKeeps(n1);
    StartElectionStands(MaybeApply(n1), timeout);
    var c := StandForElection(n1, false, timeout).node;
    if n.membership.active == Simple(Membership({n.id})) { AloneTakesOffice(c); }
  }
}
