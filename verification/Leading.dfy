/** What a leader does with requests, acknowledgements and ticks (src/raft/node.rs:1618-1942,
    1945-2098, 2133-2195, 2404-2474), stated on its log and its tables: what it appends and
    sends, when it commits, and which reads it answers. */
module Leading {
  import opened Basics
  import opened Configuration
  import opened Machine
  import opened LogSpec
  import opened Messages
  import opened RaftNode
  import opened NodeInvariant
  import opened Elections
  import Reconfiguration
  import Serving

  /** A message of its own term that a leader handles. */
  predicate Handles(n: Node, e: Envelope) {
    n.role.Leader? && Reaches(n, e) && e.term == n.term && !e.message.PreCampaign? && !e.message.PreCampaignResponse?
  }

  lemma HandlesAtTerm(n: Node, e: Envelope, timeout: Ticks)
    requires Ok(n) && Handles(n, e)
    ensures var r := LeaderAtTerm(n, e);
      Step(n, e, timeout) ==
        if r.stepDown then StepDown(r.outcome.node, r.outcome.node.term, timeout).Also(r.outcome.out) else r.outcome
  {
    hide Ok, LeaderAtTerm, StepDown;
    Serving.OwnTermStep(n, e, timeout);
  }

  /** If the leader leaves office over a message, it does so at the end. */
  lemma HandlesFirst(n: Node, e: Envelope, timeout: Ticks)
    requires Ok(n) && Handles(n, e)
    ensures var r, s := LeaderAtTerm(n, e), Step(n, e, timeout);
      && r.outcome.out <= s.out && s.node == r.outcome.node.(role := s.node.role)
      && (!r.stepDown ==> s == r.outcome)
  {
    hide Step, Ok, LeaderAtTerm, AbortTable, AbortReads;
    HandlesAtTerm(n, e, timeout);
  }

  // ------------------------------------------------------------- requests

  /** A write as the state machine is to run it. */
  function Wanted(request: Request): Command
    requires request.WriteRequest? || request.SessionRequest?
  {
    if request.WriteRequest? then Plain(request.put) else Session(request.client, request.serial, request.put)
  }

  /** A new entry for those who were waiting for it. */
  function Appends(n: Node, entry: Entry): multiset<Envelope>
    requires n.role.Leader?
  {
    multiset(set p | p in Waiting(n) :: Envelope(n.id, n.term, p, Append(|n.log|, LastTermOf(n.log), [entry])))
  }

  lemma ProposeMeans(n: Node, command: Option<Command>)
    requires n.role.Leader? && Ok(n) && n.opts.maxAppendEntries >= 1
    ensures CanAppend(n)
    ensures var entry := Entry(|n.log| + 1, n.term, command, None);
      Propose(n, command) == Outcome(n.(log := n.log + [entry], role := n.role.(progress := Moved(n))), Appends(n, entry))
  {
    OfferMeans(n, AppendEntry(n, command, None), Entry(|n.log| + 1, n.term, command, None));
    hide Offer;
  }

  /** A write is appended as it was asked for, its client waits at its index, and those who
      have been sent everything before it are sent it now. */
  lemma WriteMeans(n: Node, e: Envelope, timeout: Ticks)
    requires Ok(n) && Handles(n, e) && e.message.ClientRequest? && n.opts.maxAppendEntries >= 1
    requires (e.message.request.WriteRequest? || e.message.request.SessionRequest?) && |n.membership.active.AllVoters()| != 1
    ensures var entry := Entry(|n.log| + 1, n.term, Some(Wanted(e.message.request)), None);
      Step(n, e, timeout) == Outcome(
        n.(log := n.log + [entry],
           role := n.role.(progress := Moved(n), writes := n.role.writes[|n.log| + 1 := Client(e.from, e.message.id)])),
        Appends(n, entry))
  {
    var request := e.message.request;
    HandlesAtTerm(n, e, timeout);
    ProposeMeans(n, Some(Wanted(request)));
    assert CommandOf(request) == Wanted(request);
    hide Propose, Step, StepDown, Moved, Appends, LeaderOk, CommitAndApply;
    assert OnWrite(n, Client(e.from, e.message.id), request) == LeaderAtTerm(n, e);
  }

  /** A read gets the next number, waits, and has everyone else asked to confirm it. */
  lemma ReadMeans(n: Node, e: Envelope, timeout: Ticks)
    requires Ok(n) && Handles(n, e) && e.message.ClientRequest? && e.message.request.ReadRequest? && |n.membership.active.AllVoters()| != 1
    ensures var q := n.role.readSeq + 1;
      Step(n, e, timeout) == Outcome(
        n.(role := n.role.(readSeq := q, pendingReads := n.role.pendingReads + [PendingRead(q, Client(e.from, e.message.id), e.message.request.query)])),
        multiset(set p | p in Others(n) :: Envelope(n.id, n.term, p, Message.Read(q))))
  {
    HandlesAtTerm(n, e, timeout);
    assert Peers(n) == Others(n);
    hide Step, StepDown, AnswerReads, Ok;
  }

  /** The status names the leader, its term, what every other node is known to hold, and how
      far the log is committed and applied. */
  lemma StatusMeans(n: Node, e: Envelope, timeout: Ticks)
    requires Ok(n) && Handles(n, e) && e.message.ClientRequest? && e.message.request.StatusRequest?
    ensures Step(n, e, timeout).node == n
    ensures exists held: map<NodeId, Index> ::
      && Step(n, e, timeout).out == multiset{Envelope(n.id, n.term, e.from, ClientResponse(e.message.id,
           StatusResult(n.id, n.term, held, n.commit, n.machine.kv.applied, n.membership.active.AllVoters())))}
      && held.Keys == n.role.progress.Keys + {n.id} && held[n.id] == |n.log|
      && forall p :: p in n.role.progress && p != n.id ==> held[p] == n.role.progress[p].matchIndex
  {
    HandlesAtTerm(n, e, timeout);
    hide Step, StepDown, Ok;
    var held := Status(n).matchIndex;
    assert held.Keys == n.role.progress.Keys + {n.id};
  }

  /** Why a change of the voters is turned down, if it is. */
  function Refusal(n: Node, voters: set<NodeId>): Option<string> {
    if n.membership.changePending then Some("membership change already in progress")
    else if voters == {} then Some("voters must not be empty")
    else match n.membership.active
      case Joint(_, _) => Some("already in joint consensus")
      case Simple(m) => if m.voters == voters then Some("membership unchanged") else None
  }

  lemma ChangeRefused(n: Node, e: Envelope, timeout: Ticks)
    requires Ok(n) && Handles(n, e) && e.message.ClientRequest? && e.message.request.ChangeMembership?
    ensures var refusal := Refusal(n, e.message.request.voters);
      refusal == None
      || Step(n, e, timeout) == Outcome(n, multiset{Envelope(n.id, n.term, e.from, ClientResponse(e.message.id, Failed(InvalidInput(refusal.value))))})
  {
    HandlesAtTerm(n, e, timeout);
    RefusalIsError(n, e.message.request.voters);
    hide Step, StepDown, Ok, ProposeMembership, CommitIfAlone, Refusal, ChangeError;
  }

  lemma RefusalIsError(n: Node, voters: set<NodeId>)
    ensures ChangeError(n, voters) == Refusal(n, voters)
  {
  }

  /** A change is accepted exactly if the last one is over and the voters are some and are
      others than now: the old and the new together are in force at once, whoever is new
      is taken to hold everything before, and the client waits for that entry. */
  lemma ChangeMeans(n: Node, e: Envelope, timeout: Ticks)
    requires Ok(n) && Handles(n, e) && e.message.ClientRequest? && e.message.request.ChangeMembership? && n.opts.maxAppendEntries >= 1
    requires !n.membership.changePending && n.membership.active.Simple? && e.message.request.voters != {}
    requires e.message.request.voters != n.membership.active.config.voters
    requires |n.membership.active.config.voters + e.message.request.voters| != 1
    ensures var r := Step(n, e, timeout).node;
      var joint := Joint(n.membership.active.config, Membership(e.message.request.voters));
      && r.role.Leader? && r.log == n.log + [Entry(|n.log| + 1, n.term, None, Some(joint))]
      && r.membership == MembershipState(joint, true) && r.commit == n.commit && r.machine == n.machine
      && r.role.membershipWrites == n.role.membershipWrites[|n.log| + 1 := Client(e.from, e.message.id)]
      && r.role.progress == Joined(n, r) && Step(n, e, timeout).out == Appends(n, Entry(|n.log| + 1, n.term, None, Some(joint)))
  {
    var voters := e.message.request.voters;
    var joint := Joint(n.membership.active.config, Membership(voters));
    HandlesFirst(n, e, timeout);
    RefusalIsError(n, voters);
    ProposalMeans(n, joint);
    hide ProposeMembership, Step, CommitAndApply, LeaderOk, ChangeError, Appends, Joined;
    var r := ProposeMembership(n, joint);
    assert ClusterSize(r.node) != 1;
    NoneLeaves(n, joint, r.node);
  }

  /** The progress of everyone in force: who is new is taken to hold all the log. */
  function Joined(n: Node, r: Node): map<NodeId, Progress>
    requires n.role.Leader?
  {
    map p | p in Others(r) :: if p in n.role.progress then Moved(n)[p] else Progress(0, |n.log| + 2, 0)
  }

  lemma NoneLeaves(n: Node, m: MembershipEntry, r: Node)
    requires n.role.Leader? && Ok(n) && m.Joint? && n.membership.active == Simple(m.outgoing) && r.membership.active == m && r.id == n.id
    ensures Waiting(n) <= Others(r)
  {
  }

  /** A configuration is in force as soon as its entry is there, and decides who is sent it. */
  lemma ProposalMeans(n: Node, m: MembershipEntry)
    requires n.role.Leader? && Ok(n) && n.opts.maxAppendEntries >= 1
    ensures CanAppend(n)
    ensures var entry, r := Entry(|n.log| + 1, n.term, None, Some(m)), ProposeMembership(n, m);
      && r.node.role.Leader? && r.node == n.(log := n.log + [entry], membership := MembershipState(m, true), role := r.node.role)
      && r.node.role == n.role.(progress := Joined(n, r.node), peerSeen := r.node.role.peerSeen)
      && (Waiting(n) <= Others(r.node) ==> r.out == Appends(n, entry))
  {
    var entry := Entry(|n.log| + 1, n.term, None, Some(m));
    var n1 := SyncProgress(AppendEntry(n, None, Some(m)).(membership := n.membership.ApplyEntry(m)));
    SyncedMeans(n, m, n1);
    hide SyncProgress, Moved, Joined, Waiting, Offer, LeaderOk;
    OfferMeans(n1.(log := n.log), n1, entry);
    JoinedSame(n, n1, Offer(n1).node);
  }

  lemma SyncedMeans(n: Node, m: MembershipEntry, n1: Node)
    requires n.role.Leader? && Ok(n)
    requires n1 == SyncProgress(AppendEntry(n, None, Some(m)).(membership := n.membership.ApplyEntry(m)))
    ensures CanAppend(n) && n1.role.Leader? && LeaderOk(n1) && n1.log == n.log + [Entry(|n.log| + 1, n.term, None, Some(m))]
    ensures n1 == n.(log := n1.log, membership := MembershipState(m, true), role := n1.role)
    ensures n1.role == n.role.(progress := n1.role.progress, peerSeen := n1.role.peerSeen)
    ensures Moved(n1.(log := n.log)) == Joined(n, n1) && Waiting(n1.(log := n.log)) == Waiting(n) * Others(n1)
  {
    assert Peers(n1) == Others(n1);
    SyncedProgress(n, n1.(log := n.log));
  }

  lemma SyncedProgress(n: Node, n0: Node)
    requires n.role.Leader? && n0.role.Leader? && n0.log == n.log && n0.role.progress.Keys == Others(n0)
    requires forall p :: p in n0.role.progress ==>
      n0.role.progress[p] == if p in n.role.progress then n.role.progress[p] else Progress(0, |n.log| + 2, 0)
    ensures Moved(n0) == Joined(n, n0) && Waiting(n0) == Waiting(n) * Others(n0)
  {
  }

  lemma JoinedSame(n: Node, n1: Node, r: Node)
    requires n.role.Leader? && r.id == n1.id && r.membership == n1.membership
    ensures Joined(n, r) == Joined(n, n1) && Others(r) == Others(n1)
  {
    hide Moved;
    assert Others(r) == Others(n1);
  }

  // ----------------------------------------------------- acknowledgements

  /** Who holds the log up to i, once `peer` holds it up to `index`. */
  function HoldersOnce(n: Node, peer: NodeId, index: Index, i: Index): set<NodeId>
    requires n.role.Leader?
  {
    {n.id} + set p | p in n.role.progress && (n.role.progress[p].matchIndex >= i || (p == peer && index >= i))
  }

  /** The entry at i is of the leader's term, and a majority holds the log up to it. */
  predicate Decided(n: Node, peer: NodeId, index: Index, i: Index)
    requires n.role.Leader?
  {
    1 <= i <= |n.log| && n.log[i - 1].term == n.term && Majority(n.membership.active, HoldersOnce(n, peer, index, i))
  }

  /** The commit index and what is applied, once `peer` holds the log up to `index`. */
  ghost predicate CommitsBy(n: Node, peer: NodeId, index: Index, commit: Index, machine: State)
    requires n.role.Leader?
  {
    && commit >= n.commit
    && (commit > n.commit ==> Decided(n, peer, index, commit) && Applied(machine) == commit)
    && (forall i :: n.commit < i && Decided(n, peer, index, i) ==> i <= commit)
    && (commit == n.commit ==> machine == n.machine)
  }

  lemma MatchCommits(n: Node, peer: NodeId, index: Index)
    requires n.role.Leader? && Ok(n) && peer in n.role.progress && n.role.progress[peer].matchIndex < index <= |n.log|
    ensures var r := OnMatch(n, peer, index).outcome.node; CommitsBy(n, peer, index, r.commit, r.machine)
  {
    hide CommitAndApply, CommitTarget, Decided, Ok;
    var n1 := SetProgress(n, peer, n.role.progress[peer].Advance(index));
    AdvancedOk(n, peer, index);
    CommitMeans(n, peer, index, n1);
    CommitReaches(n1);
    assert OnMatch(n, peer, index) == CommitAndApply(n1);
    hide OnMatch;
  }

  lemma AdvancedOk(n: Node, peer: NodeId, index: Index)
    requires n.role.Leader? && Ok(n) && peer in n.role.progress && index <= |n.log|
    ensures Ok(SetProgress(n, peer, n.role.progress[peer].Advance(index)))
  {
  }

  /** A commit reaches its target, and so does what is applied; or nothing happens. */
  lemma CommitReaches(n: Node)
    requires n.role.Leader? && Ok(n)
    ensures var r, c := CommitAndApply(n).outcome, CommitTarget(n, |n.log|);
      if c > n.commit then r.node.commit == c == Applied(r.node.machine) && r.node.term == n.term && n.log <= r.node.log
      else r == Stay(n)
  {
    hide CommitAndApply, CommitTarget, LeaderOk, Reconfiguration.Extended, Reconfiguration.Proposals, Reconfiguration.Excluded;
    if CommitTarget(n, |n.log|) > n.commit {
      Reconfiguration.CommitFrame(n);
      Reconfiguration.ExtendedHolds(n.log, n.term, Reconfiguration.Proposals(Reconfiguration.ToApply(n)), 0);
    } else {
      Reconfiguration.NoCommit(n);
    }
  }

  lemma CommitMeans(n: Node, peer: NodeId, index: Index, n1: Node)
    requires n.role.Leader? && Ok(n) && peer in n.role.progress && n.role.progress[peer].matchIndex < index <= |n.log|
    requires n1 == SetProgress(n, peer, n.role.progress[peer].Advance(index))
    ensures var c := CommitTarget(n1, |n1.log|);
      c >= n.commit && (c > n.commit ==> Decided(n, peer, index, c)) && forall i :: n.commit < i && Decided(n, peer, index, i) ==> i <= c
  {
    hide LeaderOk, Majority;
    forall i: nat | n.commit < i <= |n.log| ensures Committable(n1, i) <==> Decided(n, peer, index, i) {
      assert Holders(n1, i) == HoldersOnce(n, peer, index, i);
      JointNeedsBoth(n.membership.active, Holders(n1, i));
    }
    hide Committable, Decided;
  }

  lemma SendKeeps(n: Node, peer: NodeId, probe: bool)
    requires n.role.Leader? && Ok(n)
    ensures var r := SendAppend(n, peer, probe).node; r == n.(role := r.role)
  {
  }

  lemma ReadAckKeeps(n: Node, peer: NodeId, serial: nat)
    requires n.role.Leader? && Ok(n) && peer in n.role.progress
    ensures var r := OnReadAck(n, peer, serial).node;
      && r.role.Leader? && Ok(r) && r == n.(role := r.role) && r.role.progress.Keys == n.role.progress.Keys
      && (forall p :: p in n.role.progress ==> r.role.progress[p].matchIndex == n.role.progress[p].matchIndex)
      && r.role.writes == n.role.writes && r.role.membershipWrites == n.role.membershipWrites
  {
    if serial > n.role.progress[peer].readSeq {
      AnswerReadsFrame(SetProgress(n, peer, n.role.progress[peer].AdvanceRead(serial)));
    }
    hide AnswerReads;
  }

  /** The message tells that its sender holds the leader's log up to `index`. */
  predicate Acknowledges(n: Node, e: Envelope, index: Index)
    requires n.role.Leader?
  {
    && e.from in n.role.progress && index <= |n.log|
    && (e.message == AppendResponse(index, 0)
        || (e.message.HeartbeatResponse? && e.message.matchIndex == index && e.message.readSeq <= n.role.readSeq))
  }

  /** On learning that a peer holds more of the log, the leader commits the last entry of
      its own term that a majority now holds, if that is further than before, and applies
      everything up to it; it does so even if it then leaves office. */
  lemma AcknowledgedCommits(n: Node, e: Envelope, timeout: Ticks, index: Index)
    requires Ok(n) && Handles(n, e) && Acknowledges(n, e, index) && n.role.progress[e.from].matchIndex < index
    ensures var r := Step(n, e, timeout).node; CommitsBy(n, e.from, index, r.commit, r.machine)
  {
    hide Step, Ok, CommitsBy, LeaderAtTerm;
    HandlesFirst(n, e, timeout);
    if e.message.AppendResponse? {
      AcceptedCommits(n, e, index);
    } else {
      BeatCommits(n, e, index);
    }
  }

  lemma AcceptedCommits(n: Node, e: Envelope, index: Index)
    requires n.role.Leader? && Ok(n) && e.message == AppendResponse(index, 0)
    requires e.from in n.role.progress && n.role.progress[e.from].matchIndex < index <= |n.log|
    ensures var r := LeaderAtTerm(n, e).outcome.node; CommitsBy(n, e.from, index, r.commit, r.machine)
  {
    hide OnMatch, SendAppend, Ok, CommitsBy, NotePeer;
    NotedOk(n, e.from);
    NotedSame(n, e.from);
    var n1 := NotePeer(n, e.from);
    MatchCommits(n1, e.from, index);
    var r := OnMatch(n1, e.from, index).outcome.node;
    SendKeeps(r, e.from, false);
    SameCommits(n, n1, e.from, index, r.commit, r.machine);
  }

  lemma BeatCommits(n: Node, e: Envelope, index: Index)
    requires n.role.Leader? && Ok(n) && e.message.HeartbeatResponse? && e.message.matchIndex == index && e.message.readSeq <= n.role.readSeq
    requires e.from in n.role.progress && n.role.progress[e.from].matchIndex < index <= |n.log|
    ensures var r := LeaderAtTerm(n, e).outcome.node; CommitsBy(n, e.from, index, r.commit, r.machine)
  {
    hide OnMatch, OnReadAck, Ok, CommitsBy, NotePeer;
    NotedOk(n, e.from);
    NotedSame(n, e.from);
    var n1 := NotePeer(n, e.from);
    ReadAckKeeps(n1, e.from, e.message.readSeq);
    var n2 := OnReadAck(n1, e.from, e.message.readSeq).node;
    MatchCommits(n2, e.from, index);
    var r := OnMatch(n2, e.from, index).outcome.node;
    SameCommits(n, n2, e.from, index, r.commit, r.machine);
  }

  lemma NotedSame(n: Node, from: NodeId)
    requires n.role.Leader?
    ensures var n1 := NotePeer(n, from); n1 == n.(role := n1.role) && n1.role == n.role.(peerSeen := n1.role.peerSeen)
  {
  }

  lemma SameCommits(n: Node, n1: Node, peer: NodeId, index: Index, commit: Index, machine: State)
    requires n.role.Leader? && n1.role.Leader? && n1 == n.(role := n1.role) && n1.role.progress.Keys == n.role.progress.Keys
    requires forall p :: p in n.role.progress ==> n1.role.progress[p].matchIndex == n.role.progress[p].matchIndex
    requires CommitsBy(n1, peer, index, commit, machine)
    ensures CommitsBy(n, peer, index, commit, machine)
  {
    forall i ensures HoldersOnce(n1, peer, index, i) == HoldersOnce(n, peer, index, i) {}
    hide HoldersOnce, Majority;
    forall i ensures Decided(n1, peer, index, i) == Decided(n, peer, index, i) {}
    hide Decided;
  }

  // ---------------------------------------------------------------- reads

  /** The leader has committed in its own term, and has applied all of that. */
  predicate Readable(n: Node) {
    1 <= n.commit <= |n.log| && n.log[n.commit - 1].term >= n.term && n.machine.kv.applied >= n.commit
  }

  /** A majority has confirmed the read of that number, once `peer` has confirmed `upTo`. */
  predicate ConfirmedOnce(n: Node, peer: NodeId, upTo: nat, serial: nat)
    requires n.role.Leader?
  {
    Majority(n.membership.active,
             {n.id} + set p | p in n.role.progress && (n.role.progress[p].readSeq >= serial || (p == peer && upTo >= serial)))
  }

  /** The answer to a read on the present state. */
  function ReadAnswer(n: Node, read: PendingRead): Envelope {
    Envelope(n.id, n.term, read.client.from, ClientResponse(read.client.id, ReadResult(Machine.Read(n.machine, read.query))))
  }

  /** Exactly the reads that may be answered are: the others wait on. */
  predicate Releases(n: Node, release: set<PendingRead>, r: Outcome)
    requires n.role.Leader?
  {
    r.node.role.Leader?
    && (forall read :: read in n.role.pendingReads ==>
          if read in release then ReadAnswer(n, read) in r.out && read !in r.node.role.pendingReads
          else read in r.node.role.pendingReads)
    && (forall read :: read in r.node.role.pendingReads ==> read in n.role.pendingReads)
    && |r.out| + |r.node.role.pendingReads| == |n.role.pendingReads|
  }

  function Releasable(n: Node): set<PendingRead>
    requires n.role.Leader?
  {
    set read | read in n.role.pendingReads && CanRead(n) && Confirmed(n, read.serial)
  }

  /** Confirming a later read confirms the earlier ones. */
  lemma ConfirmsEarlier(n: Node, a: nat, b: nat)
    requires n.role.Leader? && a <= b && Confirmed(n, b)
    ensures Confirmed(n, a)
  {
    QuorumMonotone(n.membership.active, Confirmers(n, b), Confirmers(n, a));
  }

  lemma {:induction false} ReadsReleased(n: Node)
    requires n.role.Leader? && Ok(n)
    ensures Releases(n, Releasable(n), AnswerReads(n))
    decreases |n.role.pendingReads|
  {
    var queue := n.role.pendingReads;
    hide Confirmed, LeaderOk;
    if queue == [] {
    } else if !CanRead(n) || !Confirmed(n, queue[0].serial) {
      forall read | read in queue ensures read !in Releasable(n) {
        SerialsAscend(n, read);
        if Confirmed(n, read.serial) { ConfirmsEarlier(n, queue[0].serial, read.serial); }
      }
    } else {
      var n1 := n.(role := n.role.(pendingReads := queue[1..]));
      PopKeepsOk(n);
      ReadsReleased(n1);
      assert queue == [queue[0]] + queue[1..];
      FirstOnce(n);
      FirstReleasable(n, n1);
      ReleasedAlso(n, n1, AnswerReads(n1));
    }
  }

  lemma SameConfirmed(n: Node, n1: Node, k: nat)
    requires n.role.Leader? && n1.role.Leader? && n1 == n.(role := n.role.(pendingReads := n1.role.pendingReads))
    ensures Confirmed(n1, k) == Confirmed(n, k)
  {
  }

  lemma PopKeepsOk(n: Node)
    requires n.role.Leader? && Ok(n) && n.role.pendingReads != []
    ensures Ok(n.(role := n.role.(pendingReads := n.role.pendingReads[1..])))
  {
  }

  lemma SerialsAscend(n: Node, read: PendingRead)
    requires n.role.Leader? && Ok(n) && n.role.pendingReads != [] && read in n.role.pendingReads
    ensures n.role.pendingReads[0].serial <= read.serial
  {
  }

  lemma FirstOnce(n: Node)
    requires n.role.Leader? && Ok(n) && n.role.pendingReads != []
    ensures n.role.pendingReads[0] !in n.role.pendingReads[1..]
  {
    forall i | 0 <= i < |n.role.pendingReads| - 1 ensures n.role.pendingReads[1..][i] != n.role.pendingReads[0] {
      assert n.role.pendingReads[1..][i] == n.role.pendingReads[i + 1];
    }
  }

  lemma FirstReleasable(n: Node, n1: Node)
    requires n.role.Leader? && n1.role.Leader? && n.role.pendingReads != [] && CanRead(n) && Confirmed(n, n.role.pendingReads[0].serial)
    requires n1 == n.(role := n.role.(pendingReads := n.role.pendingReads[1..]))
    ensures Releasable(n) == {n.role.pendingReads[0]} + Releasable(n1)
  {
    var queue := n.role.pendingReads;
    assert CanRead(n1);
    hide Releasable, Confirmed, CanRead;
    FirstOrLater(queue);
    forall read ensures read in Releasable(n) <==> read == queue[0] || read in Releasable(n1) {
      InReleasable(n, read);
      InReleasable(n1, read);
      SameConfirmed(n, n1, read.serial);
    }
  }

  lemma InReleasable(n: Node, read: PendingRead)
    requires n.role.Leader?
    ensures read in Releasable(n) <==> read in n.role.pendingReads && CanRead(n) && Confirmed(n, read.serial)
  {
  }

  lemma FirstOrLater(queue: seq<PendingRead>)
    requires queue != []
    ensures forall read :: read in queue <==> read == queue[0] || read in queue[1..]
  {
    assert queue == [queue[0]] + queue[1..];
  }

  lemma ReleasedAlso(n: Node, n1: Node, r: Outcome)
    requires n.role.Leader? && n1.role.Leader? && n.role.pendingReads != [] && n.role.pendingReads[0] !in n.role.pendingReads[1..]
    requires n1 == n.(role := n.role.(pendingReads := n.role.pendingReads[1..]))
    requires Releasable(n) == {n.role.pendingReads[0]} + Releasable(n1) && Releases(n1, Releasable(n1), r)
    ensures Releases(n, Releasable(n), r.Also(multiset{AnswerRead(n, n.role.pendingReads[0])}))
  {
    hide Releasable;
    var queue := n.role.pendingReads;
    assert queue == [queue[0]] + queue[1..];
    assert ReadAnswer(n, queue[0]) == AnswerRead(n, queue[0]);
    forall read ensures ReadAnswer(n1, read) == ReadAnswer(n, read) {}
    hide ReadAnswer, AnswerRead;
  }

  /** What may be answered once `peer` has confirmed up to `upTo`. */
  function Due(n: Node, peer: NodeId, upTo: nat): set<PendingRead>
    requires n.role.Leader?
  {
    set read | read in n.role.pendingReads && Readable(n) && ConfirmedOnce(n, peer, upTo, read.serial)
  }

  lemma DueIsReleasable(n: Node, peer: NodeId, upTo: nat, n1: Node)
    requires n.role.Leader? && Ok(n) && peer in n.role.progress && n.role.progress[peer].readSeq < upTo
    requires n1 == SetProgress(n, peer, n.role.progress[peer].AdvanceRead(upTo))
    ensures Releasable(n1) == Due(n, peer, upTo)
  {
    hide Majority;
    forall read | read in n.role.pendingReads ensures Confirmed(n1, read.serial) == ConfirmedOnce(n, peer, upTo, read.serial) {
      SerialsBounded(n, read);
      ConfirmersOnce(n, peer, upTo, read.serial, n1);
      JointNeedsBoth(n.membership.active, Confirmers(n1, read.serial));
    }
    assert CanRead(n1) == Readable(n);
    hide Confirmed, ConfirmedOnce, LeaderOk, CanRead, Readable;
  }

  lemma SerialsBounded(n: Node, read: PendingRead)
    requires n.role.Leader? && Ok(n) && read in n.role.pendingReads
    ensures 1 <= read.serial <= n.role.readSeq
  {
  }

  lemma ConfirmersOnce(n: Node, peer: NodeId, upTo: nat, serial: nat, n1: Node)
    requires n.role.Leader? && peer in n.role.progress && n.role.progress[peer].readSeq < upTo && serial <= n.role.readSeq
    requires n1 == SetProgress(n, peer, n.role.progress[peer].AdvanceRead(upTo))
    ensures Confirmers(n1, serial)
      == {n.id} + set p | p in n.role.progress && (n.role.progress[p].readSeq >= serial || (p == peer && upTo >= serial))
  {
  }

  lemma AckReleases(n: Node, peer: NodeId, upTo: nat)
    requires n.role.Leader? && Ok(n) && peer in n.role.progress && n.role.progress[peer].readSeq < upTo
    ensures Releases(n, Due(n, peer, upTo), OnReadAck(n, peer, upTo))
  {
    var n1 := SetProgress(n, peer, n.role.progress[peer].AdvanceRead(upTo));
    AckedOk(n, peer, n1);
    DueIsReleasable(n, peer, upTo, n1);
    ReadsReleased(n1);
    hide AnswerReads, Releasable, Due, Ok;
    forall read ensures ReadAnswer(n1, read) == ReadAnswer(n, read) {}
    assert OnReadAck(n, peer, upTo) == AnswerReads(n1);
  }

  lemma AckedOk(n: Node, peer: NodeId, n1: Node)
    requires n.role.Leader? && Ok(n) && peer in n.role.progress
    requires exists upTo: nat :: n1 == SetProgress(n, peer, n.role.progress[peer].AdvanceRead(upTo))
    ensures n1.role.Leader? && Ok(n1)
  {
  }

  /** A peer's confirmation has exactly those reads answered, with what they find on the
      present state, that a majority has now confirmed, provided the leader has committed
      in its term and applied all of it; the others wait on. */
  lemma ConfirmationAnswers(n: Node, e: Envelope, timeout: Ticks)
    requires Ok(n) && Handles(n, e) && e.message.ReadResponse? && e.from in n.role.progress
    requires n.role.progress[e.from].readSeq < e.message.readSeq
    ensures Releases(n, Due(n, e.from, e.message.readSeq), Step(n, e, timeout))
  {
    hide Step, Releases, Due, OnReadAck, NotePeer, LeaderOk;
    HandlesAtTerm(n, e, timeout);
    NotedOk(n, e.from);
    NotedSame(n, e.from);
    var n1 := NotePeer(n, e.from);
    AckReleases(n1, e.from, e.message.readSeq);
    SameDue(n, n1, e.from, e.message.readSeq);
    SameRelease(n, n1, Due(n, e.from, e.message.readSeq), Step(n, e, timeout));
  }

  lemma SameDue(n: Node, n1: Node, peer: NodeId, upTo: nat)
    requires n.role.Leader? && n1.role.Leader? && n1 == n.(role := n.role.(peerSeen := n1.role.peerSeen))
    ensures Due(n1, peer, upTo) == Due(n, peer, upTo)
  {
    hide Majority;
  }

  lemma SameRelease(n: Node, n1: Node, release: set<PendingRead>, r: Outcome)
    requires n.role.Leader? && n1.role.Leader? && n1 == n.(role := n.role.(peerSeen := n1.role.peerSeen)) && Releases(n1, release, r)
    ensures Releases(n, release, r)
  {
    forall read ensures ReadAnswer(n1, read) == ReadAnswer(n, read) {}
    hide ReadAnswer;
  }

  /** So does the read number of a heartbeat's answer. */
  lemma BeatAnswers(n: Node, e: Envelope, timeout: Ticks)
    requires Ok(n) && Handles(n, e) && e.message.HeartbeatResponse? && e.from in n.role.progress
    requires n.role.progress[e.from].readSeq < e.message.readSeq <= n.role.readSeq && e.message.matchIndex <= |n.log|
    ensures forall read :: read in Due(n, e.from, e.message.readSeq) ==> ReadAnswer(n, read) in Step(n, e, timeout).out
  {
    hide Step, LeaderAtTerm, Releases, Due, OnReadAck, NotePeer, LeaderOk, ReadAnswer;
    HandlesFirst(n, e, timeout);
    NotedOk(n, e.from);
    NotedSame(n, e.from);
    var n1 := NotePeer(n, e.from);
    AckReleases(n1, e.from, e.message.readSeq);
    SameDue(n, n1, e.from, e.message.readSeq);
    SameRelease(n, n1, Due(n, e.from, e.message.readSeq), OnReadAck(n1, e.from, e.message.readSeq));
    ReleasedOut(n, Due(n, e.from, e.message.readSeq), OnReadAck(n1, e.from, e.message.readSeq));
    DueWaits(n, e.from, e.message.readSeq);
    BeatReleases(n, e, n1);
  }

  lemma BeatReleases(n: Node, e: Envelope, n1: Node)
    requires n.role.Leader? && Ok(n) && e.message.HeartbeatResponse? && e.from in n.role.progress && n1 == NotePeer(n, e.from)
    requires e.message.readSeq <= n.role.readSeq && e.message.matchIndex <= |n.log|
    ensures n1.role.Leader? && Ok(n1) && e.from in n1.role.progress
    ensures OnReadAck(n1, e.from, e.message.readSeq).out <= LeaderAtTerm(n, e).outcome.out
  {
    hide LeaderOk, OnMatch, OnReadAck, Probe, NotePeer;
    NotedOk(n, e.from);
    NotedSame(n, e.from);
  }

  lemma DueWaits(n: Node, peer: NodeId, upTo: nat)
    requires n.role.Leader?
    ensures forall read :: read in Due(n, peer, upTo) ==> read in n.role.pendingReads
  {
  }

  lemma ReleasedOut(n: Node, release: set<PendingRead>, r: Outcome)
    requires n.role.Leader? && Releases(n, release, r)
    ensures forall read :: read in release && read in n.role.pendingReads ==> ReadAnswer(n, read) in r.out
  {
  }

  // ----------------------------------------------------------------- ticks

  /** One more tick without an answer, up to the width of the counters. */
  function OneLater(seen: map<NodeId, Ticks>): map<NodeId, Ticks> {
    map p | p in seen :: if seen[p] < 255 then seen[p] + 1 else 255
  }

  /** Every tick counts for each peer, up to the width of the counter; a heartbeat with the
      last index, the commit index and the last read number goes to all others exactly when
      the interval is over. */
  lemma TickMeans(n: Node, timeout: Ticks)
    requires Ok(n) && n.role.Leader? && Tick(n, timeout).node.role.Leader?
    ensures var r := Tick(n, timeout);
      var due := n.role.sinceHeartbeat + 1 >= n.opts.heartbeatInterval;
      && r.node == n.(role := n.role.(
           sinceHeartbeat := if due then 0 else n.role.sinceHeartbeat + 1,
           peerSeen := OneLater(n.role.peerSeen)))
      && r.out == (if due then multiset(set p | p in Others(n) :: Envelope(n.id, n.term, p, Heartbeat(|n.log|, n.commit, n.role.readSeq)))
                   else multiset{})
  {
    hide AbortTable, AbortReads, Active, ClusterSize, Announce;
    var n1 := n.(role := n.role.(
        peerSeen := map p | p in n.role.peerSeen :: Min(n.role.peerSeen[p] + 1, MAX_TICKS),
        sinceHeartbeat := n.role.sinceHeartbeat + 1));
    assert n1.role.peerSeen == OneLater(n.role.peerSeen);
    assert Tick(n, timeout) == Announce(n1) || Tick(n, timeout) == Stay(n1);
    AnnounceMeans(n1);
    assert Others(n1) == Others(n);
  }

  lemma AnnounceMeans(n: Node)
    requires Ok(n) && n.role.Leader?
    ensures Announce(n) == Outcome(n.(role := n.role.(sinceHeartbeat := 0)),
      multiset(set p | p in Others(n) :: Envelope(n.id, n.term, p, Heartbeat(|n.log|, n.commit, n.role.readSeq))))
  {
    assert Peers(n) == Others(n);
  }
}
