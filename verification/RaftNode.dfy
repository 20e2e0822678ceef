/** One Raft node as a function from a state and an input to the next state and the
    messages it sends (src/raft/node.rs). A failed assertion or a panic puts the
    node in the role Halted, in which it takes no further step. */
module RaftNode {
  import opened Basics
  import opened Configuration
  import opened Machine
  import opened LogSpec
  import opened Messages

  datatype Options = Options(
    heartbeatInterval: Ticks,
    electionTimeoutEnd: Ticks,
    maxAppendEntries: nat,
    preVote: bool,
    checkQuorum: bool)

  datatype Phase = PreVote | Election

  datatype Progress = Progress(matchIndex: Index, nextIndex: Index, readSeq: nat) {

    function Advance(index: Index): Progress {
      if index <= matchIndex then this
      else Progress(index, Max(nextIndex, index + 1), readSeq)
    }

    function AdvanceRead(n: nat): Progress {
      if n <= readSeq then this else this.(readSeq := n)
    }

    predicate Regresses(next: Index) {
      next < nextIndex && nextIndex > matchIndex + 1
    }

    function Regress(next: Index): Progress {
      if Regresses(next) then this.(nextIndex := Max(next, matchIndex + 1)) else this
    }
  }

  /** Where a response to an accepted request is owed. */
  datatype Client = Client(from: NodeId, id: RequestId)

  datatype PendingRead = PendingRead(serial: nat, client: Client, query: ReadCommand)

  datatype Role =
    | Follower(leader: Option<NodeId>, leaderSeen: Ticks, electionTimeout: Ticks, forwarded: set<RequestId>)
    | Candidate(votes: set<NodeId>, electionDuration: Ticks, electionTimeout: Ticks, phase: Phase)
    | Leader(
        progress: map<NodeId, Progress>,
        writes: map<Index, Client>,
        membershipWrites: map<Index, Client>,
        pendingReads: seq<PendingRead>,
        readSeq: nat,
        sinceHeartbeat: Ticks,
        peerSeen: map<NodeId, Ticks>)
    | Halted

  datatype Node = Node(
    id: NodeId,
    membership: MembershipState,
    term: Term,
    vote: Option<NodeId>,
    log: seq<Entry>,
    commit: Index,
    machine: State,
    opts: Options,
    role: Role)

  datatype Outcome = Outcome(node: Node, out: multiset<Envelope>) {

    function Also(more: multiset<Envelope>): Outcome {
      Outcome(node, out + more)
    }
  }

  // ------------------------------------------------------------ common

  function Peers(n: Node): set<NodeId> {
    n.membership.active.AllVoters() - {n.id}
  }

  predicate KnownSender(n: Node, from: NodeId) {
    from == n.id || from in n.membership.active.AllVoters()
  }

  function ClusterSize(n: Node): nat {
    |n.membership.active.AllVoters()|
  }

  function Send(n: Node, to: NodeId, message: Message): Envelope {
    Envelope(n.id, n.term, to, message)
  }

  function Broadcast(n: Node, message: Message): multiset<Envelope> {
    multiset(set p | p in Peers(n) :: Send(n, p, message))
  }

  function Respond(n: Node, client: Client, response: Response): Envelope {
    Send(n, client.from, ClientResponse(client.id, response))
  }

  function Halt(n: Node): Node {
    n.(role := Halted)
  }

  function Stay(n: Node): Outcome {
    Outcome(n, multiset{})
  }

  function Reply1(n: Node, to: NodeId, message: Message): Outcome {
    Outcome(n, multiset{Send(n, to, message)})
  }

  /** The candidate's log is at least as up to date as ours. */
  predicate UpToDate(n: Node, lastIndex: Index, lastTerm: Term) {
    !(LastTerm(n.log) > lastTerm || (LastTerm(n.log) == lastTerm && |n.log| > lastIndex))
  }

  function ElectionTimeoutMax(n: Node): Ticks {
    Max(n.opts.electionTimeoutEnd - 1, 1)
  }

  /** Entries spliced into the log bring their configurations into force. */
  function AdoptMembership(m: MembershipState, es: seq<Entry>): MembershipState
    decreases |es|
  {
    if es == [] then m
    else AdoptMembership(if es[0].membership.Some? then m.ApplyEntry(es[0].membership.value) else m, es[1..])
  }

  // ------------------------------------------------------ local invariant

  predicate ProgressOk(p: Progress, last: Index) {
    p.matchIndex < p.nextIndex <= last + 1
  }

  predicate ReadsOrdered(pendingReads: seq<PendingRead>, upTo: nat) {
    && (forall i, j :: 0 <= i < j < |pendingReads| ==> pendingReads[i].serial < pendingReads[j].serial)
    && (forall i :: 0 <= i < |pendingReads| ==> 1 <= pendingReads[i].serial <= upTo)
  }

  predicate LeaderOk(n: Node)
    requires n.role.Leader?
  {
    && 0 < n.term == LastTerm(n.log)
    && n.role.progress.Keys == Peers(n) == n.role.peerSeen.Keys
    && (forall p :: p in n.role.progress ==> ProgressOk(n.role.progress[p], |n.log|))
    && ReadsOrdered(n.role.pendingReads, n.role.readSeq)
    && (forall i :: i in n.role.writes ==> Applied(n.machine) < i <= |n.log| && n.log[i - 1].membership.None?)
    && (forall i :: i in n.role.membershipWrites ==> Applied(n.machine) < i <= |n.log| && n.log[i - 1].membership.Some?)
  }

  /** What every node keeps on its own, whatever messages it receives. */
  predicate Ok(n: Node) {
    && Indexed(n.log)
    && Applied(n.machine) <= n.commit <= |n.log|
    && (n.role.Leader? ==> LeaderOk(n))
  }

  // ---------------------------------------------------- follower & apply

  function AbortForwarded(n: Node): multiset<Envelope> {
    if n.role.Follower? then
      multiset(set r | r in n.role.forwarded :: Send(n, n.id, ClientResponse(r, Failed(Abort))))
    else multiset{}
  }

  /** Apply committed entries that the state machine has not seen yet. */
  function MaybeApply(n: Node): (n': Node)
    requires Indexed(n.log) && n.commit <= |n.log|
    ensures n' == n.(machine := n'.machine, membership := n'.membership)
    ensures Applied(n'.machine) == Max(Applied(n.machine), n.commit)
    decreases n.commit - Applied(n.machine)
  {
    if Applied(n.machine) >= n.commit then n
    else
      var entry := n.log[Applied(n.machine)];
      MaybeApply(n.(
        machine := Apply(n.machine, entry).0,
        membership := if entry.membership.Some? then n.membership.OnCommit(entry.membership.value) else n.membership))
  }

  function BecomeLeaderless(n: Node, term: Term, timeout: Ticks): Outcome {
    Outcome(n.(term := term, vote := None, role := Follower(None, 0, timeout, {})), AbortForwarded(n))
  }

  /** A follower without a leader in this term adopts the sender; one that follows
      another node ignores the message (None). */
  function Follow(n: Node, from: NodeId): Option<Outcome>
    requires n.role.Follower?
  {
    match n.role.leader
    case Some(l) => if l != from then None else Some(Stay(n))
    case None =>
      if n.term == 0 then Some(Stay(Halt(n)))
      else if from !in n.membership.active.AllVoters() then Some(Outcome(Halt(n), AbortForwarded(n)))
      else Some(Outcome(n.(role := Follower(Some(from), 0, n.role.electionTimeout, {})), AbortForwarded(n)))
  }

  function OnHeartbeat(n: Node, e: Envelope): Outcome
    requires n.role.Follower? && e.message.Heartbeat? && Ok(n)
  {
    var m := e.message;
    if m.commitIndex > m.lastIndex then Stay(Halt(n))
    else
      match Follow(n, e.from)
      case None => Stay(n)
      case Some(Outcome(n1, out)) =>
        if n1.role.Halted? then Outcome(n1, out)
        else
          var matches := Has(n1.log, m.lastIndex, e.term);
          var reply := Send(n1, e.from, HeartbeatResponse(if matches then m.lastIndex else 0, m.readSeq));
          var n2 := if matches && m.commitIndex > n1.commit then MaybeApply(n1.(commit := m.commitIndex)) else n1;
          Outcome(n2, out + multiset{reply})
  }

  function OnAppend(n: Node, e: Envelope): Outcome
    requires n.role.Follower? && e.message.Append? && Ok(n)
  {
    var m := e.message;
    if m.entries != [] && m.baseIndex != m.entries[0].index - 1 then Stay(Halt(n))
    else
      match Follow(n, e.from)
      case None => Stay(n)
      case Some(Outcome(n1, out)) =>
        if n1.role.Halted? then Outcome(n1, out)
        else if m.baseIndex == 0 || Has(n1.log, m.baseIndex, m.baseTerm) then
          match Splice(n1.log, 1, n1.commit, n1.term, m.entries)
          case None => Outcome(Halt(n1), out)
          case Some(log) =>
            var n2 := n1.(log := log, membership := AdoptMembership(n1.membership, m.entries));
            Outcome(n2, out + multiset{Send(n2, e.from, AppendResponse(m.baseIndex + |m.entries|, 0))})
        else
          Outcome(n1, out + multiset{Send(n1, e.from, AppendResponse(0, Min(m.baseIndex, |n1.log| + 1)))})
  }

  function OnRead(n: Node, e: Envelope): Outcome
    requires n.role.Follower? && e.message.Read?
  {
    match Follow(n, e.from)
    case None => Stay(n)
    case Some(Outcome(n1, out)) =>
      if n1.role.Halted? then Outcome(n1, out)
      else Outcome(n1, out + multiset{Send(n1, e.from, ReadResponse(e.message.readSeq))})
  }

  function OnCampaign(n: Node, e: Envelope): Outcome
    requires n.role.Follower? && e.message.Campaign?
  {
    if (n.vote.Some? && n.vote.value != e.from) || !UpToDate(n, e.message.lastIndex, e.message.lastTerm) then
      Reply1(n, e.from, CampaignResponse(false))
    else if e.term == 0 then Stay(Halt(n))
    else
      Reply1(n.(term := e.term, vote := Some(e.from)), e.from, CampaignResponse(true))
  }

  function OnForward(n: Node, e: Envelope): Outcome
    requires n.role.Follower?
  {
    match e.message
    case ClientRequest(id, _) =>
      if e.from != n.id || n.role.leader.None? then Reply1(n, e.from, ClientResponse(id, Failed(Abort)))
      else Reply1(n.(role := n.role.(forwarded := n.role.forwarded + {id})), n.role.leader.value, e.message)
    case ClientResponse(id, response) =>
      if n.role.leader != Some(e.from) || id !in n.role.forwarded then Stay(n)
      else Reply1(n.(role := n.role.(forwarded := n.role.forwarded - {id})), n.id, e.message)
    case _ => Stay(n)
  }

  /** A message of the follower's own term. */
  function FollowerAtTerm(n: Node, e: Envelope): Outcome
    requires n.role.Follower? && Ok(n)
  {
    var n1 := if n.role.leader == Some(e.from) then n.(role := n.role.(leaderSeen := 0)) else n;
    match e.message
    case Heartbeat(_, _, _) => OnHeartbeat(n1, e)
    case Append(_, _, _) => OnAppend(n1, e)
    case Read(_) => OnRead(n1, e)
    case Campaign(_, _) => OnCampaign(n1, e)
    case ClientRequest(_, _) => OnForward(n1, e)
    case ClientResponse(_, _) => OnForward(n1, e)
    case HeartbeatResponse(_, _) => Stay(Halt(n1))
    case AppendResponse(_, _) => Stay(Halt(n1))
    case ReadResponse(_) => Stay(Halt(n1))
    case _ => Stay(n1)
  }

  /** Pre-vote never changes term or vote. */
  function FollowerPreVote(n: Node, e: Envelope): Outcome
    requires n.role.Follower?
  {
    match e.message
    case PreCampaign(lastIndex, lastTerm) =>
      var vote :=
        && !(n.role.leader.Some? && n.role.leaderSeen < n.role.electionTimeout)
        && UpToDate(n, lastIndex, lastTerm)
        && e.term > n.term;
      Reply1(n, e.from, PreCampaignResponse(vote))
    case _ => Stay(n)
  }

  predicate IsPreVote(m: Message) {
    m.PreCampaign? || m.PreCampaignResponse?
  }

  function FollowerStep(n: Node, e: Envelope, timeout: Ticks): Outcome
    requires n.role.Follower? && Ok(n)
  {
    if IsPreVote(e.message) then FollowerPreVote(n, e)
    else if e.term < n.term then Stay(n)
    else if e.term > n.term then
      var r := BecomeLeaderless(n, e.term, timeout);
      FollowerAtTerm(r.node, e).Also(r.out)
    else FollowerAtTerm(n, e)
  }

  function FollowerTick(n: Node, timeout: Ticks): Outcome
    requires n.role.Follower? && Ok(n)
  {
    var n1 := n.(role := n.role.(leaderSeen := n.role.leaderSeen + 1));
    if n1.role.leaderSeen >= n1.role.electionTimeout then StandForElection(n1, true, timeout) else Stay(n1)
  }

  // --------------------------------------------------------- candidate

  function StandForElection(n: Node, usePreVote: bool, timeout: Ticks): Outcome
    requires n.role.Follower? && Ok(n)
  {
    var out := AbortForwarded(n);
    var n1 := MaybeApply(n);
    if usePreVote && n1.opts.preVote then StartPreVote(n1, timeout).Also(out)
    else StartElection(n1, timeout).Also(out)
  }

  function StartPreVote(n: Node, timeout: Ticks): Outcome {
    var n1 := n.(role := Candidate({n.id}, 0, timeout, PreVote));
    if ClusterSize(n1) == 1 then StartElection(n1, timeout)
    else
      var ask := multiset(set p | p in Peers(n1) :: Envelope(n1.id, n1.term + 1, p, PreCampaign(|n1.log|, LastTerm(n1.log))));
      if n1.membership.active.HasQuorum(n1.role.votes) then StartElection(n1, timeout).Also(ask)
      else Outcome(n1, ask)
  }

  function StartElection(n: Node, timeout: Ticks): Outcome {
    var n1 := n.(term := n.term + 1, vote := Some(n.id), role := Candidate({n.id}, 0, timeout, Election));
    Outcome(n1, Broadcast(n1, Campaign(|n1.log|, LastTerm(n1.log))))
  }

  function NewLeader(n: Node): Node {
    n.(role := Leader(
      map p | p in Peers(n) :: Progress(0, |n.log| + 1, 0), map[], map[], [], 0, 0,
      map p | p in Peers(n) :: 0))
  }

  function WinElection(n: Node): Outcome
    requires n.role.Candidate? && Ok(n)
  {
    if n.term == 0 || n.vote != Some(n.id) || n.role.phase != Election then Stay(Halt(n))
    else
      var r1 := Propose(NewLeader(n), None);
      var r2 := CommitAndApply(r1.node).outcome;
      var r3 := Announce(r2.node);
      Outcome(r3.node, r1.out + r2.out + r3.out)
  }

  /** A vote counts if its sender is a voter. */
  function Counted(n: Node, from: NodeId): (n': Node)
    requires n.role.Candidate?
    ensures n'.role.Candidate? && (Ok(n) ==> Ok(n'))
  {
    if from in n.membership.active.AllVoters() then n.(role := n.role.(votes := n.role.votes + {from})) else n
  }

  function VoteCounted(n: Node, from: NodeId): Outcome
    requires n.role.Candidate? && Ok(n)
  {
    var n1 := Counted(n, from);
    if n1.membership.active.HasQuorum(n1.role.votes) then WinElection(n1) else Stay(n1)
  }

  /** The election after a won pre-vote; a lone voter wins it at once. */
  function AfterPreVote(n: Node, timeout: Ticks): Outcome
    requires n.role.Candidate? && Ok(n)
  {
    var r := StartElection(n, timeout);
    if r.node.membership.active.HasQuorum(r.node.role.votes) then WinElection(r.node).Also(r.out) else r
  }

  function PreVoteCounted(n: Node, from: NodeId, timeout: Ticks): Outcome
    requires n.role.Candidate? && Ok(n)
  {
    var n1 := Counted(n, from);
    if n1.membership.active.HasQuorum(n1.role.votes) then AfterPreVote(n1, timeout) else Stay(n1)
  }

  function CandidateStep(n: Node, e: Envelope, timeout: Ticks): Outcome
    requires n.role.Candidate? && Ok(n)
  {
    match e.message
    case PreCampaign(lastIndex, lastTerm) =>
      Reply1(n, e.from, PreCampaignResponse(UpToDate(n, lastIndex, lastTerm) && e.term > n.term))
    case PreCampaignResponse(vote) =>
      if !vote || n.role.phase != PreVote then Stay(n) else PreVoteCounted(n, e.from, timeout)
    case _ =>
      if e.term < n.term then Stay(n)
      else if e.term > n.term then
        var r := BecomeLeaderless(n, e.term, timeout);
        FollowerAtTerm(r.node, e).Also(r.out)
      else CandidateAtTerm(n, e, timeout)
  }

  function CandidateAtTerm(n: Node, e: Envelope, timeout: Ticks): Outcome
    requires n.role.Candidate? && Ok(n)
  {
    match e.message
    case CampaignResponse(vote) =>
      if !vote || n.role.phase != Election then Stay(n) else VoteCounted(n, e.from)
    case Campaign(_, _) => Reply1(n, e.from, CampaignResponse(false))
    case Heartbeat(_, _, _) => FollowerAtTerm(LoseElection(n, e.from, timeout), e)
    case Append(_, _, _) => FollowerAtTerm(LoseElection(n, e.from, timeout), e)
    case Read(_) => FollowerAtTerm(LoseElection(n, e.from, timeout), e)
    case ClientRequest(id, _) => Reply1(n, e.from, ClientResponse(id, Failed(Abort)))
    case _ => Stay(Halt(n))
  }

  function LoseElection(n: Node, leader: NodeId, timeout: Ticks): Node {
    n.(role := Follower(Some(leader), 0, timeout, {}))
  }

  function CandidateTick(n: Node, timeout: Ticks): Outcome
    requires n.role.Candidate?
  {
    var n1 := n.(role := n.role.(electionDuration := n.role.electionDuration + 1));
    if n1.role.electionDuration < n1.role.electionTimeout then Stay(n1)
    else if n1.opts.preVote then StartPreVote(n1, timeout)
    else StartElection(n1, timeout)
  }

  // ------------------------------------------------------------ leader

  /** What `maybe_send_append` sends to a peer with this progress, if anything, and
      the progress afterwards. */
  function NextAppend(n: Node, peer: NodeId, p: Progress, probe: bool): (r: (Progress, Option<Envelope>))
    requires ProgressOk(p, |n.log|)
    ensures ProgressOk(r.0, |n.log|)
    ensures r.0.matchIndex == p.matchIndex && r.0.readSeq == p.readSeq
  {
    var probing := probe && p.nextIndex > p.matchIndex + 1;
    if p.matchIndex == |n.log| || (p.nextIndex > |n.log| && !probing) then (p, None)
    else
      var base := p.nextIndex - 1;
      var upTo := if probing then base else Min(|n.log|, base + n.opts.maxAppendEntries);
      (p.(nextIndex := upTo + 1), Some(Send(n, peer, Append(base, TermAt(n.log, base), n.log[base..upTo]))))
  }

  function SendAppend(n: Node, peer: NodeId, probe: bool): Outcome
    requires n.role.Leader? && LeaderOk(n)
  {
    if peer !in n.role.progress then Stay(n)
    else
      var (p, env) := NextAppend(n, peer, n.role.progress[peer], probe);
      Outcome(n.(role := n.role.(progress := n.role.progress[peer := p])),
              if env.Some? then multiset{env.value} else multiset{})
  }

  predicate ProgressKept(progress: map<NodeId, Progress>, last: Index) {
    forall p :: p in progress ==> ProgressOk(progress[p], last)
  }

  /** Offer a freshly appended entry to every peer that is waiting exactly for it. */
  function Offer(n: Node): Outcome
    requires n.role.Leader? && LeaderOk(n)
  {
    var waiting := set p | p in n.role.progress && n.role.progress[p].nextIndex == |n.log|;
    var progress := map p | p in n.role.progress ::
      if p in waiting then NextAppend(n, p, n.role.progress[p], false).0 else n.role.progress[p];
    var out := multiset(set p | p in waiting && NextAppend(n, p, n.role.progress[p], false).1.Some? ::
      NextAppend(n, p, n.role.progress[p], false).1.value);
    Outcome(n.(role := n.role.(progress := progress)), out)
  }

  function AppendEntry(n: Node, command: Option<Command>, membership: Option<MembershipEntry>): Node {
    n.(log := n.log + [Entry(|n.log| + 1, n.term, command, membership)])
  }

  /** The leader's own invariant before it has written its no-op. */
  predicate CanAppend(n: Node) {
    && n.role.Leader? && Ok(n.(role := Halted)) && n.term > 0
    && n.role.progress.Keys == Peers(n) == n.role.peerSeen.Keys
    && ProgressKept(n.role.progress, |n.log|)
    && ReadsOrdered(n.role.pendingReads, n.role.readSeq)
    && (forall i :: i in n.role.writes ==> Applied(n.machine) < i <= |n.log| && n.log[i - 1].membership.None?)
    && (forall i :: i in n.role.membershipWrites ==> Applied(n.machine) < i <= |n.log| && n.log[i - 1].membership.Some?)
  }

  function Propose(n: Node, command: Option<Command>): (r: Outcome)
    requires CanAppend(n)
    ensures r.node.role.Leader? && Ok(r.node)
  {
    Offer(AppendEntry(n, command, None))
  }

  /** A change of configuration brings new peers into the progress tables and drops
      the ones that left. */
  function SyncProgress(n: Node): Node
    requires n.role.Leader?
  {
    n.(role := n.role.(
      progress := map p | p in Peers(n) :: if p in n.role.progress then n.role.progress[p] else Progress(0, |n.log| + 1, 0),
      peerSeen := map p | p in Peers(n) :: if p in n.role.peerSeen then n.role.peerSeen[p] else 0))
  }

  lemma CanAlwaysAppend(n: Node)
    requires n.role.Leader? && Ok(n)
    ensures CanAppend(n)
  {
  }

  lemma SyncKeepsOk(n: Node)
    requires n.role.Leader? && Ok(n)
    ensures Ok(SyncProgress(n))
  {
  }

  function ProposeMembership(n: Node, m: MembershipEntry): (r: Outcome)
    requires CanAppend(n)
    ensures r.node.role.Leader? && Ok(r.node)
  {
    var n1 := AppendEntry(n, None, Some(m));
    Offer(SyncProgress(n1.(membership := n1.membership.ApplyEntry(m))))
  }

  function ChangeError(n: Node, voters: set<NodeId>): Option<string> {
    if n.membership.changePending then Some("membership change already in progress")
    else if voters == {} then Some("voters must not be empty")
    else if n.membership.active.Joint? then Some("already in joint consensus")
    else if n.membership.active.config == Membership(voters) then Some("membership unchanged")
    else None
  }

  /** The leader and the peers known to hold the log up to `index`. */
  function Holders(n: Node, index: Index): set<NodeId>
    requires n.role.Leader?
  {
    {n.id} + set p | p in n.role.progress && n.role.progress[p].matchIndex >= index
  }

  /** The leader may commit an entry of its own term that a quorum holds. */
  predicate Committable(n: Node, index: Index)
    requires n.role.Leader?
  {
    && TermAt(n.log, index) == n.term
    && n.membership.active.HasQuorum(Holders(n, index))
  }

  /** The greatest committable index up to `index`, or the present commit index. */
  function CommitTarget(n: Node, index: Index): (r: Index)
    requires n.role.Leader?
    ensures n.commit <= index ==> n.commit <= r <= index
    ensures r > n.commit ==> Committable(n, r)
    ensures forall i :: r < i <= index ==> !Committable(n, i)
  {
    if index <= n.commit then n.commit
    else if Committable(n, index) then index
    else CommitTarget(n, index - 1)
  }

  function Remove<T>(m: map<Index, T>, index: Index): map<Index, T> {
    m - {index}
  }

  /** Apply one committed entry and answer the request waiting for it. */
  function ApplyNext(n: Node): (r: Outcome)
    requires n.role.Leader? && Ok(n) && Applied(n.machine) < n.commit
    ensures r.node.role.Leader? && Ok(r.node)
    ensures Applied(r.node.machine) == Applied(n.machine) + 1
  {
    var entry := n.log[Applied(n.machine)];
    var i := entry.index;
    var (machine, reply) := Apply(n.machine, if entry.membership.Some? then entry.(command := None) else entry);
    var membership := if entry.membership.Some? then n.membership.OnCommit(entry.membership.value) else n.membership;
    var out :=
      if entry.membership.Some? then
        if i in n.role.membershipWrites then multiset{Respond(n, n.role.membershipWrites[i], MembershipResult(i))} else multiset{}
      else if i in n.role.writes then multiset{Respond(n, n.role.writes[i], WriteResult(reply))} else multiset{};
    Outcome(n.(machine := machine, membership := membership,
               role := n.role.(writes := Remove(n.role.writes, i), membershipWrites := Remove(n.role.membershipWrites, i))), out)
  }

  function ApplyAll(n: Node): (r: Outcome)
    requires n.role.Leader? && Ok(n)
    ensures r.node.role.Leader? && Ok(r.node)
    ensures Applied(r.node.machine) == n.commit
    decreases n.commit - Applied(n.machine)
  {
    if Applied(n.machine) >= n.commit then Stay(n)
    else
      var r := ApplyNext(n);
      ApplyAll(r.node).Also(r.out)
  }

  /** The configurations among the entries (lo, hi], in log order. */
  function Configurations(log: seq<Entry>, lo: Index, hi: Index): seq<MembershipEntry>
    requires lo <= hi <= |log|
    decreases hi - lo
  {
    if lo == hi then []
    else (if log[lo].membership.Some? then [log[lo].membership.value] else []) + Configurations(log, lo + 1, hi)
  }

  datatype CommitOutcome = CommitOutcome(outcome: Outcome, stepDown: bool)

  /** After configurations commit: follow each Joint by its Simple, and notice our
      own removal. */
  function AfterConfigurations(n: Node, ms: seq<MembershipEntry>): (r: CommitOutcome)
    requires n.role.Leader? && Ok(n)
    ensures r.outcome.node.role.Leader? && Ok(r.outcome.node)
    decreases |ms|
  {
    if ms == [] then CommitOutcome(Stay(n), false)
    else
      var r := if ms[0].Joint? then ProposeMembership(n, Simple(ms[0].incoming)) else Stay(n);
      var n1 := SyncProgress(r.node);
      var removed := n1.membership.active.Simple? && n1.id !in n1.membership.active.AllVoters();
      var rest := AfterConfigurations(n1, ms[1..]);
      CommitOutcome(rest.outcome.Also(r.out), removed || rest.stepDown)
  }

  function CommitAndApply(n: Node): (r: CommitOutcome)
    requires n.role.Leader? && Ok(n)
    ensures r.outcome.node.role.Leader? && Ok(r.outcome.node)
  {
    var target := CommitTarget(n, |n.log|);
    if target <= n.commit then CommitOutcome(Stay(n), false)
    else
      var r1 := ApplyAll(n.(commit := target));
      var r2 := AfterConfigurations(r1.node, Configurations(n.log, Applied(n.machine), target));
      var r3 := if TermAt(n.log, n.commit) != n.term then AnswerReads(r2.outcome.node) else Stay(r2.outcome.node);
      CommitOutcome(Outcome(r3.node, r1.out + r2.outcome.out + r3.out), r2.stepDown)
  }

  /** The leader and the peers that confirmed its leadership for read `serial`. */
  function Confirmers(n: Node, serial: nat): set<NodeId>
    requires n.role.Leader?
  {
    (if serial <= n.role.readSeq then {n.id} else {}) + set p | p in n.role.progress && n.role.progress[p].readSeq >= serial
  }

  predicate Confirmed(n: Node, serial: nat)
    requires n.role.Leader?
  {
    n.membership.active.HasQuorum(Confirmers(n, serial))
  }

  /** The leader has committed in its own term and has applied all it committed. */
  predicate CanRead(n: Node) {
    TermAt(n.log, n.commit) >= n.term && Applied(n.machine) >= n.commit
  }

  function AnswerRead(n: Node, read: PendingRead): Envelope {
    Respond(n, read.client, ReadResult(Machine.Read(n.machine, read.query)))
  }

  /** Answer the confirmed reads at the head of the queue. */
  function AnswerReads(n: Node): (r: Outcome)
    requires n.role.Leader? && Ok(n)
    ensures r.node.role.Leader? && Ok(r.node)
    decreases |n.role.pendingReads|
  {
    if n.role.pendingReads == [] || !CanRead(n) || !Confirmed(n, n.role.pendingReads[0].serial) then Stay(n)
    else
      var n1 := n.(role := n.role.(pendingReads := n.role.pendingReads[1..]));
      AnswerReads(n1).Also(multiset{AnswerRead(n, n.role.pendingReads[0])})
  }

  function Announce(n: Node): (r: Outcome)
    requires n.role.Leader? && Ok(n)
    ensures r.node.role.Leader? && Ok(r.node)
  {
    Outcome(n.(role := n.role.(sinceHeartbeat := 0)), Broadcast(n, Heartbeat(|n.log|, n.commit, n.role.readSeq)))
  }

  /** One Abort for every request of a table whose index lies in [lo, hi). */
  function AbortTable(n: Node, table: map<Index, Client>, lo: Index, hi: Index): multiset<Envelope>
    requires lo <= hi
    decreases hi - lo
  {
    if lo == hi then multiset{}
    else (if lo in table then multiset{Respond(n, table[lo], Failed(Abort))} else multiset{}) + AbortTable(n, table, lo + 1, hi)
  }

  function AbortReads(n: Node, pendingReads: seq<PendingRead>): multiset<Envelope>
    decreases |pendingReads|
  {
    if pendingReads == [] then multiset{}
    else multiset{Respond(n, pendingReads[0].client, Failed(Abort))} + AbortReads(n, pendingReads[1..])
  }

  /** Leave office, for a higher term or within this one, aborting every pending request. */
  function StepDown(n: Node, term: Term, timeout: Ticks): Outcome
    requires n.role.Leader?
  {
    var n1 := if term > n.term then n.(term := term, vote := None) else n;
    Outcome(n1.(role := Follower(None, 0, timeout, {})),
            AbortTable(n1, n.role.writes, 0, |n.log| + 1)
            + AbortTable(n1, n.role.membershipWrites, 0, |n.log| + 1)
            + AbortReads(n1, n.role.pendingReads))
  }

  function NotePeer(n: Node, from: NodeId): Node
    requires n.role.Leader?
  {
    if from in n.role.peerSeen then n.(role := n.role.(peerSeen := n.role.peerSeen[from := 0])) else n
  }

  lemma SeenOk(n: Node)
    requires n.role.Follower? && Ok(n)
    ensures Ok(n.(role := n.role.(leaderSeen := 0)))
  {
  }

  lemma NotedOk(n: Node, from: NodeId)
    requires n.role.Leader? && Ok(n)
    ensures var n1 := NotePeer(n, from);
      n1.role.Leader? && Ok(n1) && n1.role.progress == n.role.progress && n1.log == n.log && n1.id == n.id && n1.opts == n.opts
  {
  }

  function SetProgress(n: Node, peer: NodeId, p: Progress): Node
    requires n.role.Leader?
  {
    n.(role := n.role.(progress := n.role.progress[peer := p]))
  }

  /** A peer's match index may have moved: commit what that allows. */
  function OnMatch(n: Node, peer: NodeId, index: Index): (r: CommitOutcome)
    requires n.role.Leader? && Ok(n) && peer in n.role.progress && index <= |n.log|
    ensures r.outcome.node.role.Leader? && Ok(r.outcome.node)
  {
    if index <= n.role.progress[peer].matchIndex then CommitOutcome(Stay(n), false)
    else CommitAndApply(SetProgress(n, peer, n.role.progress[peer].Advance(index)))
  }

  function OnReadAck(n: Node, peer: NodeId, serial: nat): (r: Outcome)
    requires n.role.Leader? && Ok(n) && peer in n.role.progress
    ensures r.node.role.Leader? && Ok(r.node)
    ensures r.node.log == n.log && r.node.role.progress.Keys == n.role.progress.Keys
  {
    if serial <= n.role.progress[peer].readSeq then Stay(n)
    else
      var n1 := SetProgress(n, peer, n.role.progress[peer].AdvanceRead(serial));
      AnswerReadsFrame(n1);
      AnswerReads(n1)
  }

  lemma AnswerReadsFrame(n: Node)
    requires n.role.Leader? && Ok(n)
    ensures var r := AnswerReads(n).node; r.role.Leader? && r == n.(role := n.role.(pendingReads := r.role.pendingReads))
    decreases |n.role.pendingReads|
  {
    if !(n.role.pendingReads == [] || !CanRead(n) || !Confirmed(n, n.role.pendingReads[0].serial)) {
      AnswerReadsFrame(n.(role := n.role.(pendingReads := n.role.pendingReads[1..])));
    }
  }

  /** Fall back to an earlier next index and look for a common entry. */
  function Probe(n: Node, peer: NodeId, next: Index): (r: Outcome)
    requires n.role.Leader? && Ok(n) && peer in n.role.progress
    ensures r.node.role.Leader? && Ok(r.node) && r.node == n.(role := r.node.role)
    ensures r.node.role.progress.Keys == n.role.progress.Keys
  {
    SendAppend(SetProgress(n, peer, n.role.progress[peer].Regress(next)), peer, true)
  }

  function OnHeartbeatResponse(n: Node, e: Envelope): (r: CommitOutcome)
    requires n.role.Leader? && Ok(n) && e.message.HeartbeatResponse?
    ensures Ok(r.outcome.node) && (r.outcome.node.role.Leader? || r.outcome.node.role.Halted?)
    ensures r.outcome.node.role.Halted? ==> !r.stepDown
  {
    var m := e.message;
    if e.from !in n.role.progress then CommitOutcome(Stay(n), false)
    else
      var n1 := NotePeer(n, e.from);
      if m.matchIndex > |n1.log| || m.readSeq > n1.role.readSeq then CommitOutcome(Stay(Halt(n1)), false)
      else
        var r2 := OnReadAck(n1, e.from, m.readSeq);
        var r3 :=
          if m.matchIndex != 0 then Stay(r2.node)
          else Probe(r2.node, e.from, |n1.log|);
        var r4 := OnMatch(r3.node, e.from, m.matchIndex);
        CommitOutcome(r4.outcome.Also(r2.out + r3.out), r4.stepDown)
  }

  /** A peer holds the log up to `index`: commit what that allows and send what is next. */
  function OnAccepted(n: Node, peer: NodeId, index: Index): (r: CommitOutcome)
    requires n.role.Leader? && Ok(n) && peer in n.role.progress && index <= |n.log|
    ensures r.outcome.node.role.Leader? && Ok(r.outcome.node)
  {
    var r2 := OnMatch(n, peer, index);
    var r3 := SendAppend(r2.outcome.node, peer, false);
    CommitOutcome(r3.Also(r2.outcome.out), r2.stepDown)
  }

  function OnAppendResponse(n: Node, e: Envelope): (r: CommitOutcome)
    requires n.role.Leader? && Ok(n) && e.message.AppendResponse?
    ensures Ok(r.outcome.node) && (r.outcome.node.role.Leader? || r.outcome.node.role.Halted?)
    ensures r.outcome.node.role.Halted? ==> !r.stepDown
  {
    var m := e.message;
    if (m.matchIndex > 0) == (m.rejectIndex > 0) then CommitOutcome(Stay(Halt(n)), false)
    else if e.from !in n.role.progress then CommitOutcome(Stay(n), false)
    else
      var n1 := NotePeer(n, e.from);
      if m.matchIndex > |n1.log| || m.rejectIndex > |n1.log| then CommitOutcome(Stay(Halt(n1)), false)
      else if m.matchIndex > 0 then OnAccepted(n1, e.from, m.matchIndex)
      else
        var p := n1.role.progress[e.from];
        if m.rejectIndex <= p.matchIndex || !p.Regresses(m.rejectIndex) then CommitOutcome(Stay(n1), false)
        else CommitOutcome(Probe(n1, e.from, m.rejectIndex), false)
  }

  function Status(n: Node): Response
    requires n.role.Leader?
  {
    StatusResult(n.id, n.term,
      (map p | p in n.role.progress :: n.role.progress[p].matchIndex)[n.id := |n.log|],
      n.commit, Applied(n.machine), n.membership.active.AllVoters())
  }

  function CommandOf(request: Request): Command
    requires request.WriteRequest? || request.SessionRequest?
  {
    match request
    case WriteRequest(put) => Plain(put)
    case SessionRequest(client, serial, put) => Session(client, serial, put)
  }

  /** A single voter commits at once. */
  function CommitIfAlone(r: Outcome): (c: CommitOutcome)
    requires r.node.role.Leader? && Ok(r.node)
    ensures c.outcome.node.role.Leader? && Ok(c.outcome.node)
  {
    if ClusterSize(r.node) == 1 then
      var c := CommitAndApply(r.node);
      CommitOutcome(c.outcome.Also(r.out), c.stepDown)
    else CommitOutcome(r, false)
  }

  /** A read gets the next number and waits at the end of the queue. */
  function Queued(n: Node, client: Client, query: ReadCommand): Node
    requires n.role.Leader?
  {
    n.(role := n.role.(readSeq := n.role.readSeq + 1,
                       pendingReads := n.role.pendingReads + [PendingRead(n.role.readSeq + 1, client, query)]))
  }

  function OnRequest(n: Node, client: Client, request: Request): (r: CommitOutcome)
    requires n.role.Leader? && Ok(n)
    ensures r.outcome.node.role.Leader? && Ok(r.outcome.node)
  {
    match request
    case WriteRequest(_) => OnWrite(n, client, request)
    case SessionRequest(_, _, _) => OnWrite(n, client, request)
    case ReadRequest(query) =>
      var n1 := Queued(n, client, query);
      var ask := Broadcast(n1, Message.Read(n1.role.readSeq));
      CommitOutcome((if ClusterSize(n1) == 1 then AnswerReads(n1) else Stay(n1)).Also(ask), false)
    case StatusRequest => CommitOutcome(Outcome(n, multiset{Respond(n, client, Status(n))}), false)
    case ChangeMembership(voters) =>
      var error := ChangeError(n, voters);
      if error.Some? then CommitOutcome(Outcome(n, multiset{Respond(n, client, Failed(InvalidInput(error.value)))}), false)
      else
        var r := ProposeMembership(n, Joint(n.membership.active.config, Membership(voters)));
        var n1 := r.node.(role := r.node.role.(membershipWrites := r.node.role.membershipWrites[|r.node.log| := client]));
        CommitIfAlone(Outcome(n1, r.out))
  }

  function OnWrite(n: Node, client: Client, request: Request): (r: CommitOutcome)
    requires n.role.Leader? && Ok(n) && (request.WriteRequest? || request.SessionRequest?)
    ensures r.outcome.node.role.Leader? && Ok(r.outcome.node)
  {
    var r := Propose(n, Some(CommandOf(request)));
    var n1 := r.node.(role := r.node.role.(writes := r.node.role.writes[|r.node.log| := client]));
    CommitIfAlone(Outcome(n1, r.out))
  }

  function LeaderAtTerm(n: Node, e: Envelope): (r: CommitOutcome)
    requires n.role.Leader? && Ok(n)
    ensures Ok(r.outcome.node) && (r.outcome.node.role.Leader? || r.outcome.node.role.Halted?)
    ensures r.outcome.node.role.Halted? ==> !r.stepDown
  {
    match e.message
    case HeartbeatResponse(_, _) => OnHeartbeatResponse(n, e)
    case AppendResponse(_, _) => OnAppendResponse(n, e)
    case ReadResponse(serial) =>
      if e.from !in n.role.progress then CommitOutcome(Stay(n), false)
      else CommitOutcome(OnReadAck(NotePeer(n, e.from), e.from, serial), false)
    case ClientRequest(id, request) => OnRequest(n, Client(e.from, id), request)
    case Campaign(_, _) => CommitOutcome(Reply1(n, e.from, CampaignResponse(false)), false)
    case ClientResponse(_, _) => CommitOutcome(Stay(Halt(n)), false)
    case _ => CommitOutcome(Stay(n), false)
  }

  function LeaderStep(n: Node, e: Envelope, timeout: Ticks): Outcome
    requires n.role.Leader? && Ok(n)
  {
    if e.message.PreCampaign? then Reply1(n, e.from, PreCampaignResponse(false))
    else if e.message.PreCampaignResponse? || e.term < n.term then Stay(n)
    else if e.term > n.term then
      var r := StepDown(n, e.term, timeout);
      FollowerAtTerm(r.node, e).Also(r.out)
    else
      var r := LeaderAtTerm(n, e);
      if r.stepDown then StepDown(r.outcome.node, r.outcome.node.term, timeout).Also(r.outcome.out) else r.outcome
  }

  /** The leader and the peers heard from within the window. */
  function Active(n: Node): set<NodeId>
    requires n.role.Leader?
  {
    {n.id} + set p | p in n.role.peerSeen && n.role.peerSeen[p] < ElectionTimeoutMax(n)
  }

  function LeaderTick(n: Node, timeout: Ticks): Outcome
    requires n.role.Leader? && Ok(n)
  {
    var n1 := n.(role := n.role.(
        peerSeen := map p | p in n.role.peerSeen :: Min(n.role.peerSeen[p] + 1, MAX_TICKS),
        sinceHeartbeat := n.role.sinceHeartbeat + 1));
    var r := if n1.role.sinceHeartbeat >= n1.opts.heartbeatInterval then Announce(n1) else Stay(n1);
    if r.node.opts.checkQuorum && ClusterSize(r.node) > 1 && !r.node.membership.active.HasQuorum(Active(r.node)) then
      StepDown(r.node, r.node.term, timeout).Also(r.out)
    else r
  }

  // -------------------------------------------------------- entry points

  /** Handle one message. `timeout` is the random election timeout drawn on the way. */
  function Step(n: Node, e: Envelope, timeout: Ticks): Outcome
    requires Ok(n)
  {
    if e.to != n.id then Stay(Halt(n))
    else if !KnownSender(n, e.from) then Stay(n)
    else
      match n.role
      case Follower(_, _, _, _) => FollowerStep(n, e, timeout)
      case Candidate(_, _, _, _) => CandidateStep(n, e, timeout)
      case Leader(_, _, _, _, _, _, _) => LeaderStep(n, e, timeout)
      case Halted => Stay(n)
  }

  function Tick(n: Node, timeout: Ticks): Outcome
    requires Ok(n)
  {
    match n.role
    case Follower(_, _, _, _) => FollowerTick(n, timeout)
    case Candidate(_, _, _, _) => CandidateTick(n, timeout)
    case Leader(_, _, _, _, _, _, _) => LeaderTick(n, timeout)
    case Halted => Stay(n)
  }

  /** The configuration in force at start-up: the last one in the log, settled when
      it is Simple and committed. */
  function RestoreMembership(m: MembershipState, log: seq<Entry>, commit: Index): MembershipState {
    if log == [] then m
    else
      var last := log[|log| - 1];
      match last.membership
      case Some(c) => MembershipState(c, !(c.Simple? && last.index <= commit))
      case None => RestoreMembership(m, log[..|log| - 1], commit)
  }

  /** Start a node on what its disk holds. A single voter elects itself at once. */
  function Start(id: NodeId, peers: set<NodeId>, term: Term, vote: Option<NodeId>, log: seq<Entry>, commit: Index,
                 opts: Options, timeout: Ticks): Outcome
    requires Indexed(log) && commit <= |log|
  {
    var n := Node(id, RestoreMembership(Bootstrap(id, peers), log, commit), term, vote, log, commit, EmptyState, opts,
                  Follower(None, 0, timeout, {}));
    var n1 := MaybeApply(n);
    if ClusterSize(n1) == 1 then
      var r := StandForElection(n1, false, timeout);
      WinElection(r.node).Also(r.out)
    else Stay(n1)
  }
}
