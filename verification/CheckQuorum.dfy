/** A leader that checks its quorum (src/raft/node.rs) stays in office over a tick
    exactly as long as a quorum, itself included, was heard from within the window.
    The table of saturating counters it keeps is compared with the number of ticks
    that really passed, over responses, ticks and changes of the peers. */
module CheckQuorum {
  import opened Basics
  import opened Configuration
  import opened Machine
  import opened Messages
  import opened RaftNode
  import opened NodeInvariant
  import opened Reconfiguration

  // ------------------------------------------- what happens to the table

  /** The configurations that a leader appended between two of its states: the ones it
      had in force in turn, after the first. */
  function Appended(n: Node, n': Node): seq<MembershipEntry> {
    if |n.log| <= |n'.log| then Configurations(n'.log, |n.log|, |n'.log|) else []
  }

  /** The node was a peer all the way from one state to the other. */
  predicate Remained(n: Node, n': Node, p: NodeId)
    requires n.role.Leader?
  {
    p in n.role.peerSeen && forall c :: c in Appended(n, n') ==> p in c.AllVoters()
  }

  /** Peers that remained keep their counters, others were added and start at 0. */
  predicate Follows(n: Node, n': Node) {
    && n.role.Leader? && n'.role.Leader? && Ok(n') && n.log <= n'.log && n'.id == n.id
    && n'.membership.active == ([n.membership.active] + Appended(n, n'))[|Appended(n, n')|]
    && forall p :: p in n'.role.peerSeen ==> n'.role.peerSeen[p] == if Remained(n, n', p) then n.role.peerSeen[p] else 0
  }

  lemma AppendedInTwo(n: Node, n1: Node, n2: Node)
    requires n.log <= n1.log <= n2.log
    ensures Appended(n, n2) == Appended(n, n1) + Appended(n1, n2)
  {
    ConfigurationsSplit(n2.log, |n.log|, |n1.log|, |n2.log|);
    ConfigurationsOfPrefix(n1.log, n2.log, |n.log|, |n1.log|);
  }

  lemma RemainedInTwo(n: Node, n1: Node, n2: Node, p: NodeId)
    requires Ok(n) && Follows(n, n1) && Follows(n1, n2)
    ensures Remained(n, n2, p) <==> Remained(n, n1, p) && Remained(n1, n2, p)
  {
    AppendedInTwo(n, n1, n2);
    hide Configurations, Appended;
    assert n.role.peerSeen.Keys == Peers(n) && n1.role.peerSeen.Keys == Peers(n1);
  }

  lemma FollowsChain(n: Node, n1: Node, n2: Node)
    requires Ok(n) && Follows(n, n1) && Follows(n1, n2)
    ensures Follows(n, n2)
  {
    hide Configurations, Appended, Ok;
    AppendedInTwo(n, n1, n2);
    forall p | p in n2.role.peerSeen
      ensures n2.role.peerSeen[p] == if Remained(n, n2, p) then n.role.peerSeen[p] else 0
    {
      RemainedInTwo(n, n1, n2, p);
    }
  }

  /** Nothing that the table depends on has changed. */
  predicate SameTable(n: Node, n': Node) {
    && n.role.Leader? && n'.role.Leader? && Ok(n') && n'.id == n.id && n'.role.peerSeen == n.role.peerSeen
    && n'.membership.active == n.membership.active
  }

  lemma SameFollows(n: Node, n': Node)
    requires SameTable(n, n') && n'.log == n.log
    ensures Follows(n, n')
  {
    hide Ok;
    assert Appended(n, n') == [];
  }

  lemma PlainFollows(n: Node, n': Node, e: Entry)
    requires SameTable(n, n') && n'.log == n.log + [e] && e.membership.None?
    ensures Follows(n, n')
  {
    ConfigurationsAppended(n.log, e, |n.log|);
    hide Ok;
    assert Configurations(n.log, |n.log|, |n.log|) == [];
    assert Appended(n, n') == [];
  }

  lemma ProposalFollows(n: Node, m: MembershipEntry)
    requires n.role.Leader? && Ok(n)
    ensures Follows(n, ProposeMembership(n, m).node)
  {
    ProposalOk(n, m);
    ProposalFrame(n, m);
    ProposalTable(n, m);
    var e := Entry(|n.log| + 1, n.term, None, Some(m));
    ConfigurationsAppended(n.log, e, |n.log|);
    hide Ok, ProposeMembership;
    assert Configurations(n.log, |n.log|, |n.log|) == [];
    assert Appended(n, ProposeMembership(n, m).node) == [m];
  }

  lemma ProposalTable(n: Node, m: MembershipEntry)
    requires n.role.Leader? && Ok(n)
    ensures CanAppend(n)
    ensures ProposeMembership(n, m).node.role.peerSeen
      == map p | p in m.AllVoters() - {n.id} :: if p in n.role.peerSeen then n.role.peerSeen[p] else 0
    ensures forall p :: p in n.role.peerSeen ==> p != n.id
  {
  }

  // --------------------------------------------------- every leader's step

  lemma {:induction false} AppliedSame(n: Node)
    requires n.role.Leader? && Ok(n)
    ensures SameTable(n, ApplyAll(n).node) && ApplyAll(n).node.log == n.log
    decreases n.commit - Applied(n.machine)
  {
    if Applied(n.machine) < n.commit {
      AppliedOneSame(n);
      hide ApplyNext, Ok;
      AppliedSame(ApplyNext(n).node);
    }
  }

  lemma AppliedOneSame(n: Node)
    requires n.role.Leader? && Ok(n) && Applied(n.machine) < n.commit
    ensures SameTable(n, ApplyNext(n).node) && ApplyNext(n).node.log == n.log
  {
    hide Apply;
  }

  lemma SyncedSame(n: Node)
    requires n.role.Leader? && Ok(n)
    ensures SameTable(n, SyncProgress(n)) && SyncProgress(n).log == n.log
  {
    SyncedOk(n);
    assert n.role.peerSeen.Keys == Peers(n);
    hide Ok;
    assert SyncProgress(n).role.peerSeen == n.role.peerSeen;
  }

  lemma {:induction false} ConfiguredFollows(n: Node, cs: seq<MembershipEntry>)
    requires n.role.Leader? && Ok(n)
    ensures Follows(n, AfterConfigurations(n, cs).outcome.node)
    decreases |cs|
  {
    if cs == [] {
      SameFollows(n, n);
    } else {
      var r := if cs[0].Joint? then ProposeMembership(n, Simple(cs[0].incoming)) else Stay(n);
      if cs[0].Joint? { ProposalFollows(n, Simple(cs[0].incoming)); } else { SameFollows(n, n); }
      SyncedSame(r.node);
      hide Follows, ProposeMembership, Ok, SyncProgress;
      SameFollows(r.node, SyncProgress(r.node));
      ConfiguredFollows(SyncProgress(r.node), cs[1..]);
      FollowsChain(n, r.node, SyncProgress(r.node));
      FollowsChain(n, SyncProgress(r.node), AfterConfigurations(SyncProgress(r.node), cs[1..]).outcome.node);
    }
  }

  lemma ReadsSame(n: Node)
    requires n.role.Leader? && Ok(n)
    ensures SameTable(n, AnswerReads(n).node) && AnswerReads(n).node.log == n.log
  {
    AnswerReadsFrame(n);
  }

  lemma CommitFollows(n: Node)
    requires n.role.Leader? && Ok(n)
    ensures Follows(n, CommitAndApply(n).outcome.node)
  {
    hide ApplyAll, AfterConfigurations, AnswerReads, Configurations, CommitAndApply, Follows, Ok, CommitTarget;
    var target := CommitTarget(n, |n.log|);
    CommitBounds(n);
    if target > n.commit {
      var n1 := n.(commit := target);
      CommitOk(n, target);
      assert SameTable(n, n1);
      AppliedSame(n1);
      var n2 := ApplyAll(n1).node;
      SameFollows(n, n2);
      var n3 := AfterConfigurations(n2, Configurations(n.log, Applied(n.machine), target)).outcome.node;
      ConfiguredFollows(n2, Configurations(n.log, Applied(n.machine), target));
      ReadsSame(n3);
      SameFollows(n3, AnswerReads(n3).node);
      CommitAndApplyValue(n, target);
      FollowsChain(n, n2, n3);
      FollowsChain(n, n3, AnswerReads(n3).node);
    } else {
      NoCommit(n);
      SameFollows(n, n);
    }
  }

  lemma MatchFollows(n: Node, peer: NodeId, index: Index)
    requires n.role.Leader? && Ok(n) && peer in n.role.progress && index <= |n.log|
    ensures Follows(n, OnMatch(n, peer, index).outcome.node)
  {
    if index > n.role.progress[peer].matchIndex {
      var n1 := SetProgress(n, peer, n.role.progress[peer].Advance(index));
      assert SameTable(n, n1);
      hide CommitAndApply, Follows, Ok;
      SameFollows(n, n1);
      CommitFollows(n1);
      FollowsChain(n, n1, CommitAndApply(n1).outcome.node);
    } else {
      SameFollows(n, n);
    }
  }

  lemma SendSame(n: Node, peer: NodeId, probe: bool)
    requires n.role.Leader? && Ok(n)
    ensures SameTable(n, SendAppend(n, peer, probe).node) && SendAppend(n, peer, probe).node.log == n.log
  {
  }

  lemma ProbeSame(n: Node, peer: NodeId, next: Index)
    requires n.role.Leader? && Ok(n) && peer in n.role.progress
    ensures SameTable(n, Probe(n, peer, next).node) && Probe(n, peer, next).node.log == n.log
  {
    var n1 := SetProgress(n, peer, n.role.progress[peer].Regress(next));
    assert SameTable(n, n1);
    hide SendAppend, Ok;
    SendSame(n1, peer, true);
  }

  lemma ReadAckSame(n: Node, peer: NodeId, serial: nat)
    requires n.role.Leader? && Ok(n) && peer in n.role.progress
    ensures SameTable(n, OnReadAck(n, peer, serial).node) && OnReadAck(n, peer, serial).node.log == n.log
  {
    hide AnswerReads;
    if serial > n.role.progress[peer].readSeq {
      ReadsSame(SetProgress(n, peer, n.role.progress[peer].AdvanceRead(serial)));
    }
  }

  /** The counters after a response: the sender's is renewed first. */
  predicate Renewed(n: Node, from: NodeId, n': Node) {
    && n.role.Leader? && n'.role.Leader?
    && forall p :: p in n'.role.peerSeen ==>
         n'.role.peerSeen[p] == if Remained(n, n', p) && p != from then n.role.peerSeen[p] else 0
  }

  lemma NotedThenFollows(n: Node, from: NodeId, n2: Node)
    requires n.role.Leader? && Follows(NotePeer(n, from), n2)
    ensures Renewed(n, from, n2)
  {
    hide Ok;
    forall p ensures Remained(NotePeer(n, from), n2, p) == Remained(n, n2, p) {}
  }

  /** A sender without progress has no counter either. */
  lemma Absent(n: Node, from: NodeId)
    requires n.role.Leader? && Ok(n) && from !in n.role.progress
    ensures Renewed(n, from, n)
  {
    assert n.role.progress.Keys == n.role.peerSeen.Keys;
    SameFollows(n, n);
  }

  lemma HeartbeatRenews(n: Node, e: Envelope)
    requires n.role.Leader? && Ok(n) && e.message.HeartbeatResponse? && OnHeartbeatResponse(n, e).outcome.node.role.Leader?
    ensures Renewed(n, e.from, OnHeartbeatResponse(n, e).outcome.node)
  {
    hide OnMatch, OnReadAck, Probe, Ok, NotePeer, Renewed, Follows, SameTable;
    var m := e.message;
    if e.from in n.role.progress {
      NotedOk(n, e.from);
      var n1 := NotePeer(n, e.from);
      ReadAckFrame(n1, e.from, m.readSeq);
      ReadAckSame(n1, e.from, m.readSeq);
      var r2 := OnReadAck(n1, e.from, m.readSeq).node;
      SameFollows(n1, r2);
      ProbeSame(r2, e.from, |n1.log|);
      SameFollows(r2, Probe(r2, e.from, |n1.log|).node);
      SameIsSame(r2);
      SameFollows(r2, r2);
      var r3 := if m.matchIndex != 0 then r2 else Probe(r2, e.from, |n1.log|).node;
      MatchFollows(r3, e.from, m.matchIndex);
      FollowsChain(n1, r2, r3);
      FollowsChain(n1, r3, OnMatch(r3, e.from, m.matchIndex).outcome.node);
      NotedThenFollows(n, e.from, OnMatch(r3, e.from, m.matchIndex).outcome.node);
    } else {
      Absent(n, e.from);
    }
  }

  lemma SameIsSame(n: Node)
    requires n.role.Leader? && Ok(n)
    ensures SameTable(n, n)
  {
  }

  lemma AppendRenews(n: Node, e: Envelope)
    requires n.role.Leader? && Ok(n) && e.message.AppendResponse? && OnAppendResponse(n, e).outcome.node.role.Leader?
    ensures Renewed(n, e.from, OnAppendResponse(n, e).outcome.node)
  {
    hide OnMatch, SendAppend, Probe, LeaderOk, NotePeer, Renewed, Follows, SameTable;
    var m := e.message;
    if e.from in n.role.progress {
      NotedOk(n, e.from);
      var n1 := NotePeer(n, e.from);
      if m.matchIndex > 0 {
        MatchFollows(n1, e.from, m.matchIndex);
        var n2 := OnMatch(n1, e.from, m.matchIndex).outcome.node;
        SendSame(n2, e.from, false);
        SameFollows(n2, SendAppend(n2, e.from, false).node);
        FollowsChain(n1, n2, SendAppend(n2, e.from, false).node);
      } else {
        ProbeSame(n1, e.from, m.rejectIndex);
        SameFollows(n1, Probe(n1, e.from, m.rejectIndex).node);
        SameIsSame(n1);
        SameFollows(n1, n1);
      }
      NotedThenFollows(n, e.from, OnAppendResponse(n, e).outcome.node);
    } else {
      Absent(n, e.from);
    }
  }

  lemma ReadResponseRenews(n: Node, e: Envelope)
    requires n.role.Leader? && Ok(n) && e.message.ReadResponse?
    ensures Renewed(n, e.from, LeaderAtTerm(n, e).outcome.node)
  {
    hide OnReadAck, Ok, NotePeer, Renewed, Follows, SameTable;
    NotedOk(n, e.from);
    if e.from in n.role.progress {
      ReadAckSame(NotePeer(n, e.from), e.from, e.message.readSeq);
      SameFollows(NotePeer(n, e.from), OnReadAck(NotePeer(n, e.from), e.from, e.message.readSeq).node);
      NotedThenFollows(n, e.from, OnReadAck(NotePeer(n, e.from), e.from, e.message.readSeq).node);
    } else {
      Absent(n, e.from);
    }
  }

  lemma AloneFollows(n: Node, r: Outcome)
    requires n.role.Leader? && Ok(n) && Ok(r.node) && Follows(n, r.node)
    ensures Follows(n, CommitIfAlone(r).outcome.node)
  {
    assert r.node.role.Leader?;
    hide CommitAndApply, Follows, Ok;
    CommitFollows(r.node);
    FollowsChain(n, r.node, CommitAndApply(r.node).outcome.node);
  }

  lemma WriteFollows(n: Node, client: Client, request: Request)
    requires n.role.Leader? && Ok(n) && (request.WriteRequest? || request.SessionRequest?)
    ensures Follows(n, OnWrite(n, client, request).outcome.node)
  {
    var r := Propose(n, Some(CommandOf(request)));
    var n1 := r.node.(role := r.node.role.(writes := r.node.role.writes[|r.node.log| := client]));
    assert n1.role.peerSeen == n.role.peerSeen;
    WriteFrame(n, client, request);
    hide CommitIfAlone, Propose, Ok;
    PlainFollows(n, n1, Entry(|n.log| + 1, n.term, Some(CommandOf(request)), None));
    AloneFollows(n, Outcome(n1, r.out));
  }

  lemma ChangeFollows(n: Node, client: Client, voters: set<NodeId>)
    requires n.role.Leader? && Ok(n)
    ensures Follows(n, OnRequest(n, client, ChangeMembership(voters)).outcome.node)
  {
    if ChangeError(n, voters).None? {
      ProposalOk(n, Joint(n.membership.active.config, Membership(voters)));
      ChangeFrame(n, client, voters);
      hide CommitIfAlone, ProposeMembership, Ok, OnRequest, Follows;
      var m := Joint(n.membership.active.config, Membership(voters));
      var r := ProposeMembership(n, m);
      var n1 := r.node.(role := r.node.role.(membershipWrites := r.node.role.membershipWrites[|r.node.log| := client]));
      ProposalFollows(n, m);
      SameFollows(r.node, n1);
      FollowsChain(n, r.node, n1);
      AloneFollows(n, Outcome(n1, r.out));
    } else {
      SameFollows(n, n);
    }
  }

  lemma QueuedSame(n: Node, client: Client, query: ReadCommand)
    requires n.role.Leader? && Ok(n)
    ensures SameTable(n, Queued(n, client, query))
  {
  }

  lemma ReadFollows(n: Node, client: Client, query: ReadCommand)
    requires n.role.Leader? && Ok(n)
    ensures Follows(n, OnRequest(n, client, ReadRequest(query)).outcome.node)
  {
    var n1 := Queued(n, client, query);
    hide AnswerReads, Ok, Follows;
    QueuedSame(n, client, query);
    ReadsSame(n1);
    SameFollows(n, n1);
    SameFollows(n, AnswerReads(n1).node);
  }

  lemma RequestFollows(n: Node, client: Client, request: Request)
    requires n.role.Leader? && Ok(n)
    ensures Follows(n, OnRequest(n, client, request).outcome.node)
  {
    hide OnWrite, Ok, Follows;
    match request
    case ReadRequest(query) => ReadFollows(n, client, query);
    case StatusRequest => SameIsSame(n); SameFollows(n, n);
    case ChangeMembership(voters) => ChangeFollows(n, client, voters);
    case _ => WriteFollows(n, client, request);
  }

  // ------------------------------------------------ time since last heard

  predicate Responds(n: Node, e: Envelope, p: NodeId) {
    && e.from == p && e.term == n.term && e.to == n.id
    && (e.message.HeartbeatResponse? || e.message.AppendResponse? || e.message.ReadResponse?)
  }

  /** How many ticks ago a peer was last heard from, or was added, if only again after
      it had left for a moment; for a peer present from the start, counted from what
      the table said then. */
  function Age(ns: seq<Node>, inputs: seq<Input>, i: nat, p: NodeId): nat
    requires |ns| == |inputs| + 1 && i < |ns| && (forall j :: 0 <= j < |ns| ==> ns[j].role.Leader?)
    requires p in ns[i].role.peerSeen
    decreases i
  {
    if i == 0 then ns[0].role.peerSeen[p]
    else if !Remained(ns[i - 1], ns[i], p) then 0
    else
      match inputs[i - 1]
      case Message(e, _) => if Responds(ns[i - 1], e, p) then 0 else Age(ns, inputs, i - 1, p)
      case Clock(_) => Age(ns, inputs, i - 1, p) + 1
  }

  /** The counter of a peer that remains, after one input. */
  function CounterAfter(n: Node, input: Input, p: NodeId): Ticks
    requires n.role.Leader? && p in n.role.peerSeen
  {
    match input
    case Message(e, _) => if Responds(n, e, p) then 0 else n.role.peerSeen[p]
    case Clock(_) => Min(n.role.peerSeen[p] + 1, MAX_TICKS)
  }

  /** One input's effect on the table. */
  predicate Aged(n: Node, input: Input, n': Node) {
    && n.role.Leader? && n'.role.Leader?
    && forall p :: p in n'.role.peerSeen ==> n'.role.peerSeen[p] == if Remained(n, n', p) then CounterAfter(n, input, p) else 0
  }

  lemma RenewedAges(n: Node, e: Envelope, timeout: Ticks, n': Node)
    requires Renewed(n, e.from, n') && e.term == n.term && e.to == n.id
    requires e.message.HeartbeatResponse? || e.message.AppendResponse? || e.message.ReadResponse?
    ensures Aged(n, Message(e, timeout), n')
  {
  }

  lemma FollowsAges(n: Node, e: Envelope, timeout: Ticks, n': Node)
    requires Follows(n, n') && !(e.term == n.term && (e.message.HeartbeatResponse? || e.message.AppendResponse? || e.message.ReadResponse?))
    ensures Aged(n, Message(e, timeout), n')
  {
    hide Ok;
  }

  lemma QuietFollows(n: Node, e: Envelope)
    requires n.role.Leader? && Ok(n) && LeaderAtTerm(n, e).outcome.node.role.Leader?
    requires var m := e.message; !(m.HeartbeatResponse? || m.AppendResponse? || m.ReadResponse? || m.ClientRequest?)
    ensures LeaderAtTerm(n, e).outcome.node == n
  {
  }

  lemma AtTermAges(n: Node, e: Envelope, timeout: Ticks)
    requires n.role.Leader? && Ok(n) && LeaderAtTerm(n, e).outcome.node.role.Leader? && e.term == n.term && e.to == n.id
    ensures Aged(n, Message(e, timeout), LeaderAtTerm(n, e).outcome.node)
  {
    hide OnHeartbeatResponse, OnAppendResponse, OnReadAck, OnRequest, Renewed, Follows, Aged, Ok;
    var n' := LeaderAtTerm(n, e).outcome.node;
    match e.message
    case HeartbeatResponse(_, _) =>
      HeartbeatRenews(n, e);
      RenewedAges(n, e, timeout, n');
    case AppendResponse(_, _) =>
      AppendRenews(n, e);
      RenewedAges(n, e, timeout, n');
    case ReadResponse(_) =>
      ReadResponseRenews(n, e);
      RenewedAges(n, e, timeout, n');
    case ClientRequest(id, request) =>
      RequestFollows(n, Client(e.from, id), request);
      FollowsAges(n, e, timeout, n');
    case _ =>
      QuietFollows(n, e);
      SameIsSame(n);
      SameFollows(n, n);
      FollowsAges(n, e, timeout, n');
  }

  lemma MessageAges(n: Node, e: Envelope, timeout: Ticks)
    requires n.role.Leader? && Ok(n) && Step(n, e, timeout).node.role.Leader?
    ensures Aged(n, Message(e, timeout), Step(n, e, timeout).node)
  {
    hide Step, LeaderAtTerm, Ok, Follows;
    StayingInOffice(n, e, timeout);
    Addressed(n, e, timeout);
    PeersAreKnown(n);
    SameIsSame(n);
    SameFollows(n, n);
    if e.term == n.term && KnownSender(n, e.from) && !IsPreVote(e.message) { AtTermAges(n, e, timeout); }
    else { IgnoredAges(n, e, timeout); }
  }

  lemma IgnoredAges(n: Node, e: Envelope, timeout: Ticks)
    requires Follows(n, n) && (e.term != n.term || !KnownSender(n, e.from) || IsPreVote(e.message))
    requires forall p :: p in n.role.peerSeen ==> KnownSender(n, p)
    ensures Aged(n, Message(e, timeout), n)
  {
    hide Ok, KnownSender;
  }

  lemma Addressed(n: Node, e: Envelope, timeout: Ticks)
    requires Ok(n) && Step(n, e, timeout).node.role.Leader?
    ensures e.to == n.id
  {
    hide FollowerStep, CandidateStep, LeaderStep;
  }

  lemma PeersAreKnown(n: Node)
    requires Ok(n) && n.role.Leader?
    ensures forall p :: p in n.role.peerSeen ==> KnownSender(n, p)
  {
  }

  lemma ClockAges(n: Node, timeout: Ticks)
    requires Ok(n) && n.role.Leader? && Tick(n, timeout).node.role.Leader?
    ensures Aged(n, Clock(timeout), Tick(n, timeout).node)
  {
    hide AbortTable, AbortReads, Broadcast, Active, ClusterSize, Ok;
    assert Tick(n, timeout).node.log == n.log;
    assert Appended(n, Tick(n, timeout).node) == [];
  }

  lemma AfterAges(n: Node, input: Input)
    requires n.role.Leader? && Ok(n) && After(n, input).role.Leader?
    ensures Aged(n, input, After(n, input))
  {
    hide Aged, Ok;
    match input
    case Message(e, timeout) => MessageAges(n, e, timeout);
    case Clock(timeout) => ClockAges(n, timeout);
  }

  /** The counters are the ages, capped: for any leader, with any configurations and
      any changes of them in its log. */
  lemma {:induction false} CountersAreAges(ns: seq<Node>, inputs: seq<Input>, i: nat, p: NodeId)
    requires Office(ns, inputs) && i < |ns| && p in ns[i].role.peerSeen
    requires forall q :: q in ns[0].role.peerSeen ==> ns[0].role.peerSeen[q] <= MAX_TICKS
    ensures ns[i].role.peerSeen[p] == Min(Age(ns, inputs, i, p), MAX_TICKS)
    decreases i
  {
    hide After, Ok;
    if i > 0 {
      assert ns[i] == After(ns[i - 1], inputs[i - 1]);
      AfterAges(ns[i - 1], inputs[i - 1]);
      if p in ns[i - 1].role.peerSeen { CountersAreAges(ns, inputs, i - 1, p); }
    }
  }

  // ------------------------------------------------------------ the rule

  /** The window: one tick less than the end of the range of election timeouts, at least one. */
  function Window(n: Node): Ticks {
    if n.opts.electionTimeoutEnd > 2 then n.opts.electionTimeoutEnd - 1 else 1
  }

  /** The leader and the peers heard from fewer than a window of ticks ago. */
  function HeardFrom(ns: seq<Node>, inputs: seq<Input>, i: nat): set<NodeId>
    requires |ns| == |inputs| + 1 && i < |ns| && (forall j :: 0 <= j < |ns| ==> ns[j].role.Leader?)
  {
    {ns[i].id} + set p | p in ns[i].role.peerSeen && Age(ns, inputs, i, p) < Window(ns[i])
  }

  lemma ActiveIsHeardFrom(ns: seq<Node>, inputs: seq<Input>, i: nat)
    requires Office(ns, inputs) && i < |ns|
    requires forall q :: q in ns[0].role.peerSeen ==> ns[0].role.peerSeen[q] <= MAX_TICKS
    requires ns[i].opts.electionTimeoutEnd <= MAX_TICKS
    ensures Active(ns[i]) == HeardFrom(ns, inputs, i)
  {
    forall p | p in ns[i].role.peerSeen
      ensures ns[i].role.peerSeen[p] < ElectionTimeoutMax(ns[i]) <==> Age(ns, inputs, i, p) < Window(ns[i])
    {
      CountersAreAges(ns, inputs, i, p);
    }
  }

  lemma StaysWithActive(n: Node, timeout: Ticks)
    requires Ok(n) && n.role.Leader? && n.opts.checkQuorum && Tick(n, timeout).node.role.Leader?
    ensures var n' := Tick(n, timeout).node; ClusterSize(n') > 1 ==> n'.membership.active.HasQuorum(Active(n'))
  {
    hide AbortTable, AbortReads, Broadcast;
  }

  /** A leader that checks its quorum and is still in office after a tick has heard
      from a quorum within the window, itself included. */
  lemma OfficeNeedsQuorum(ns: seq<Node>, inputs: seq<Input>, i: nat)
    requires Office(ns, inputs) && i < |inputs| && inputs[i].Clock? && ns[i].opts.checkQuorum
    requires forall q :: q in ns[0].role.peerSeen ==> ns[0].role.peerSeen[q] <= MAX_TICKS
    requires ns[i + 1].opts.electionTimeoutEnd <= MAX_TICKS && |ns[i + 1].membership.active.AllVoters()| > 1
    ensures Majority(ns[i + 1].membership.active, HeardFrom(ns, inputs, i + 1))
  {
    hide Tick, Ok;
    JointNeedsBoth(ns[i + 1].membership.active, HeardFrom(ns, inputs, i + 1));
    assert ns[i + 1] == After(ns[i], inputs[i]);
    StaysWithActive(ns[i], inputs[i].timeout);
    ActiveIsHeardFrom(ns, inputs, i + 1);
  }

  /** And only then does it leave: it steps down on a tick exactly when the counters
      of the new tick show no quorum. */
  lemma LeavesIff(n: Node, timeout: Ticks)
    requires Ok(n) && n.role.Leader?
    ensures Tick(n, timeout).node.role.Leader? <==>
      !n.opts.checkQuorum || |n.membership.active.AllVoters()| <= 1
      || Majority(n.membership.active, {n.id} + set p | p in n.role.peerSeen && Min(n.role.peerSeen[p] + 1, MAX_TICKS) < Window(n))
  {
    TickDecides(n, timeout);
    var heard := {n.id} + set p | p in n.role.peerSeen && Min(n.role.peerSeen[p] + 1, MAX_TICKS) < Window(n);
    assert Active(Counting(n)) == heard;
    JointNeedsBoth(n.membership.active, heard);
    hide Membership.HasQuorum, MembershipEntry.HasQuorum, Majority, LeaderTick, Ok;
  }

  function Counting(n: Node): Node
    requires n.role.Leader?
  {
    n.(role := n.role.(peerSeen := map p | p in n.role.peerSeen :: Min(n.role.peerSeen[p] + 1, MAX_TICKS)))
  }

  lemma TickDecides(n: Node, timeout: Ticks)
    requires Ok(n) && n.role.Leader?
    ensures LeaderTick(n, timeout).node.role.Leader? <==>
      !n.opts.checkQuorum || ClusterSize(n) <= 1 || n.membership.active.HasQuorum(Active(Counting(n)))
  {
    hide AbortTable, AbortReads, Broadcast, Membership.HasQuorum, MembershipEntry.HasQuorum;
    var n1 := Counting(n).(role := Counting(n).role.(sinceHeartbeat := n.role.sinceHeartbeat + 1));
    assert Active(n1) == Active(Counting(n));
    assert Active(n1.(role := n1.role.(sinceHeartbeat := 0))) == Active(Counting(n));
  }
}
