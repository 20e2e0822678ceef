/** How a leader brings a follower up to date (src/raft/node.rs): one message is under
    way at a time, a rejection moves the leader back, an acknowledgement forward. The
    exchange always ends, and it ends with the follower holding the leader's log. */
module CatchUp {
  import opened Basics
  import opened Machine
  import opened LogSpec
  import opened Messages
  import opened RaftNode
  import opened Protocol
  import opened ProtocolSteps
  import opened Refinement
  import opened LeaderRefinement
  import opened NodeInvariant
  import opened Cluster
  import Safety

  // ----------------------------------------------------- the two sides

  datatype Batch = Batch(base: Index, baseTerm: Term, entries: seq<Entry>)

  datatype Answer = Answer(matchIndex: Index, rejectIndex: Index)

  /** What a follower makes of a batch, and what it answers. */
  function Receive(log: seq<Entry>, commit: Index, term: Term, b: Batch): Option<(seq<Entry>, Answer)> {
    if b.base == 0 || Has(log, b.base, b.baseTerm) then
      match Splice(log, 1, commit, term, b.entries)
      case None => None
      case Some(log') => Some((log', Answer(b.base + |b.entries|, 0)))
    else Some((log, Answer(0, Min(b.base, |log| + 1))))
  }

  /** What a leader sends to a peer with this progress, and the progress afterwards. */
  function Emit(log: seq<Entry>, p: Progress, probe: bool, most: nat): (Progress, Option<Batch>)
    requires ProgressOk(p, |log|)
  {
    var probing := probe && p.nextIndex > p.matchIndex + 1;
    if p.matchIndex == |log| || (p.nextIndex > |log| && !probing) then (p, None)
    else
      var base := p.nextIndex - 1;
      var upTo := if probing then base else Min(|log|, base + most);
      (p.(nextIndex := upTo + 1), Some(Batch(base, TermAt(log, base), log[base..upTo])))
  }

  /** What a leader does on an answer: an acknowledgement never makes it send again what it
      has sent, and a rejection sends it back only if it is news. */
  function React(log: seq<Entry>, p: Progress, a: Answer, most: nat): (Progress, Option<Batch>)
    requires ProgressOk(p, |log|) && a.matchIndex <= |log| && a.rejectIndex <= |log|
  {
    if a.matchIndex > p.matchIndex then
      Emit(log, p.(matchIndex := a.matchIndex, nextIndex := Max(p.nextIndex, a.matchIndex + 1)), false, most)
    else if a.matchIndex > 0 then Emit(log, p, false, most)
    else if p.matchIndex < a.rejectIndex < p.nextIndex && p.matchIndex + 1 < p.nextIndex then
      Emit(log, p.(nextIndex := a.rejectIndex), true, most)
    else (p, None)
  }

  // -------------------------------------------------- what logs may look like

  /** Log matching between two logs. */
  predicate Matched(a: seq<Entry>, b: seq<Entry>) {
    forall i :: 0 <= i < |a| && i < |b| && a[i].term == b[i].term ==> a[..i + 1] == b[..i + 1]
  }

  predicate Sound(log: seq<Entry>, term: Term) {
    && Indexed(log) && TermsAscend(log)
    && forall i :: 0 <= i < |log| ==> 0 < log[i].term <= term
  }

  /** The leader's log, the follower's log and commit index, and what the leader
      believes of the follower. */
  predicate Pair(leader: seq<Entry>, follower: seq<Entry>, commit: Index, term: Term, p: Progress) {
    && Sound(leader, term) && Sound(follower, term) && Matched(leader, follower)
    && ProgressOk(p, |leader|) && p.matchIndex <= |follower| && commit <= |follower| && commit <= |leader|
    && follower[..p.matchIndex] == leader[..p.matchIndex] && follower[..commit] == leader[..commit]
  }

  /** The batch under way is a piece of the leader's log that ends at the next index,
      and can make progress. */
  predicate UnderWay(leader: seq<Entry>, p: Progress, b: Batch) {
    && p.matchIndex <= b.base && b.base + |b.entries| + 1 == p.nextIndex <= |leader| + 1
    && b.baseTerm == TermAt(leader, b.base)
    && b.entries == leader[b.base..b.base + |b.entries|]
    && p.matchIndex < b.base + |b.entries|
  }

  // --------------------------------------------------------- one round

  lemma PieceShaped(leader: seq<Entry>, base: nat, k: nat, term: Term)
    requires Sound(leader, term) && base < k <= |leader|
    ensures WellShaped(leader[base..k], term)
  {
  }

  /** A follower that has the base takes the whole batch. */
  lemma Accepted(leader: seq<Entry>, follower: seq<Entry>, commit: Index, term: Term, p: Progress, b: Batch)
    requires Pair(leader, follower, commit, term, p) && UnderWay(leader, p, b)
    requires b.base == 0 || Has(follower, b.base, b.baseTerm)
    ensures var r, k := Receive(follower, commit, term, b), b.base + |b.entries|;
      r.Some? && r.value.1 == Answer(k, 0) && Pair(leader, r.value.0, commit, term, p.Advance(k))
  {
    hide Splice, Sound, Matched;
    var k := b.base + |b.entries|;
    BaseShared(leader, follower, b);
    SpliceOfPiece(leader, follower, commit, term, b.base, k);
    PairAdvances(leader, follower, Splice(follower, 1, commit, term, b.entries).value, commit, term, p, k);
  }

  lemma BaseShared(leader: seq<Entry>, follower: seq<Entry>, b: Batch)
    requires Matched(leader, follower) && b.base <= |leader| && b.baseTerm == TermAt(leader, b.base)
    requires b.base == 0 || Has(follower, b.base, b.baseTerm)
    ensures b.base <= |follower| && follower[..b.base] == leader[..b.base]
  {
    if b.base > 0 { assert leader[b.base - 1].term == follower[b.base - 1].term; }
  }

  lemma PrefixMatched(log: seq<Entry>, k: nat)
    requires k <= |log|
    ensures Matched(log, log[..k])
  {
    forall i | 0 <= i < |log| && i < |log[..k]| && log[i].term == log[..k][i].term ensures log[..i + 1] == log[..k][..i + 1] {
      assert log[..k][..i + 1] == log[..i + 1];
    }
  }

  lemma PairAdvances(leader: seq<Entry>, follower: seq<Entry>, log: seq<Entry>, commit: Index, term: Term, p: Progress, k: nat)
    requires Pair(leader, follower, commit, term, p) && p.matchIndex < k <= |leader| && p.nextIndex == k + 1
    requires k <= |log| && log[..k] == leader[..k] && (log == follower || (log == leader[..k] && commit <= k))
    ensures Pair(leader, log, commit, term, p.Advance(k))
  {
    if log != follower {
      assert log[..commit] == leader[..k][..commit] == leader[..commit];
      PrefixMatched(leader, k);
    }
  }

  /** A follower without the base answers with an index at which the leader can go
      on, below the one it had tried and above what it knows to be shared. */
  lemma Rejected(leader: seq<Entry>, follower: seq<Entry>, commit: Index, term: Term, p: Progress, b: Batch)
    requires Pair(leader, follower, commit, term, p) && UnderWay(leader, p, b)
    requires !(b.base == 0 || Has(follower, b.base, b.baseTerm))
    ensures var r := Receive(follower, commit, term, b);
      r.Some? && r.value.0 == follower && r.value.1.matchIndex == 0
      && p.matchIndex < r.value.1.rejectIndex <= b.base && r.value.1.rejectIndex < p.nextIndex
      && p.Regresses(r.value.1.rejectIndex)
  {
    if p.matchIndex > 0 {
      assert follower[p.matchIndex - 1] == follower[..p.matchIndex][p.matchIndex - 1];
      assert leader[p.matchIndex - 1] == leader[..p.matchIndex][p.matchIndex - 1];
    }
  }

  /** Emitting keeps the progress in bounds and leaves a batch under way, unless the
      peer has everything. */
  lemma Emits(leader: seq<Entry>, p: Progress, probe: bool, most: nat)
    requires ProgressOk(p, |leader|) && most >= 1
    requires p.nextIndex <= |leader| || p.matchIndex == |leader|
    ensures var (p', b) := Emit(leader, p, probe, most);
      p'.matchIndex == p.matchIndex && ProgressOk(p', |leader|)
      && (b.None? <==> p.matchIndex == |leader|)
      && (b.Some? ==> UnderWay(leader, p', b.value) && b.value.base + 1 == p.nextIndex)
      && (b.Some? && probe && p.nextIndex > p.matchIndex + 1 ==> p' == p)
  {
  }

  lemma SpliceOfPiece(leader: seq<Entry>, follower: seq<Entry>, commit: Index, term: Term, base: nat, k: nat)
    requires Sound(leader, term) && Sound(follower, term) && Matched(leader, follower)
    requires commit <= |follower| && commit <= |leader| && follower[..commit] == leader[..commit]
    requires base <= k <= |leader| && base <= |follower| && follower[..base] == leader[..base]
    ensures var r := Splice(follower, 1, commit, term, leader[base..k]);
      r.Some? && Acceptable(follower, leader, r.value, k)
      && (r.value == follower || (r.value == leader[..k] && commit <= k))
  {
    hide Splice, WellShaped, Matching;
    if base < k {
      PieceShaped(leader, base, k, term);
      assert leader[base..k][0] == leader[base];
      if base > 0 { assert follower[base - 1] == follower[..base][base - 1] == leader[..base][base - 1]; }
      forall i | 0 <= i < k - base && base + i < |follower| && follower[base + i].term == leader[base..k][i].term
        ensures follower[base + i] == leader[base..k][i]
      {
        assert leader[base..k][i] == leader[base + i];
        assert follower[base + i] == follower[..base + i + 1][base + i] && leader[base + i] == leader[..base + i + 1][base + i];
      }
      SplicePiece(follower, leader, base, k, commit, term);
    } else {
      SpliceNothing(follower, commit, term, leader[base..k]);
    }
  }

  lemma SpliceNothing(log: seq<Entry>, commit: Index, term: Term, es: seq<Entry>)
    requires es == []
    ensures Splice(log, 1, commit, term, es) == Some(log)
  {
  }

  // ------------------------------------------------------ the exchange

  /** One round: the follower takes the batch, the leader takes the answer. */
  lemma Round(leader: seq<Entry>, follower: seq<Entry>, commit: Index, term: Term, p: Progress, b: Batch, most: nat)
    requires Pair(leader, follower, commit, term, p) && UnderWay(leader, p, b) && most >= 1
    ensures var r := Receive(follower, commit, term, b);
      r.Some? && r.value.1.matchIndex <= |leader| && r.value.1.rejectIndex <= |leader|
      && var (p', b') := React(leader, p, r.value.1, most);
         && Pair(leader, r.value.0, commit, term, p')
         && (b'.Some? ==> UnderWay(leader, p', b'.value))
         && (b'.None? <==> p'.matchIndex == |leader|)
         && (p'.matchIndex > p.matchIndex
             || (p'.matchIndex == p.matchIndex && b'.Some? && b'.value.base < b.base))
  {
    hide Receive, Emit, Sound, Matched;
    if b.base == 0 || Has(follower, b.base, b.baseTerm) {
      var k := b.base + |b.entries|;
      Accepted(leader, follower, commit, term, p, b);
      Emits(leader, p.Advance(k), false, most);
      PairOfProgress(leader, Receive(follower, commit, term, b).value.0, commit, term, p.Advance(k),
                     Emit(leader, p.Advance(k), false, most).0);
    } else {
      Rejected(leader, follower, commit, term, p, b);
      var a := Receive(follower, commit, term, b).value.1;
      Emits(leader, p.Regress(a.rejectIndex), true, most);
      PairOfProgress(leader, follower, commit, term, p, Emit(leader, p.Regress(a.rejectIndex), true, most).0);
    }
  }

  lemma PairOfProgress(leader: seq<Entry>, follower: seq<Entry>, commit: Index, term: Term, p: Progress, p': Progress)
    requires Pair(leader, follower, commit, term, p) && p'.matchIndex == p.matchIndex && ProgressOk(p', |leader|)
    ensures Pair(leader, follower, commit, term, p')
  {
  }

  /** The whole exchange. It ends, because every round raises the match index or tries
      an earlier base. */
  function Exchange(leader: seq<Entry>, follower: seq<Entry>, commit: Index, term: Term, p: Progress, b: Batch, most: nat): (r: (Progress, seq<Entry>))
    requires Pair(leader, follower, commit, term, p) && UnderWay(leader, p, b) && most >= 1
    ensures r.0.matchIndex == |leader| <= |r.1| && r.1[..|leader|] == leader
    decreases |leader| - p.matchIndex, b.base
  {
    Round(leader, follower, commit, term, p, b, most);
    var (follower', a) := Receive(follower, commit, term, b).value;
    var (p', b') := React(leader, p, a, most);
    match b'
    case None => assert leader[..|leader|] == leader; (p', follower')
    case Some(next) => Exchange(leader, follower', commit, term, p', next, most)
  }

  // ------------------------------------- the exchange is what the nodes do

  /** A follower's step on an Append from its leader. */
  lemma FollowerReceives(n: Node, e: Envelope, b: Batch)
    requires Ok(n) && n.role.Follower? && n.role.leader == Some(e.from)
    requires e.message == Append(b.base, b.baseTerm, b.entries) && (b.entries != [] ==> b.base == b.entries[0].index - 1)
    ensures var r, receive := OnAppend(n, e), Receive(n.log, n.commit, n.term, b);
      && (receive.None? ==> r == Stay(Halt(n)))
      && (receive.Some? ==>
            r.node.log == receive.value.0 && r.node.role == n.role
            && r.out == multiset{Send(r.node, e.from, AppendResponse(receive.value.1.matchIndex, receive.value.1.rejectIndex))})
  {
    hide Splice;
    AppendValue(n, e, Stay(n));
  }

  lemma {:induction false} ApplyAllFrame(n: Node)
    requires n.role.Leader? && Ok(n)
    ensures var r := ApplyAll(n).node; r.log == n.log && r.term == n.term && r.id == n.id && r.opts == n.opts && r.role.progress == n.role.progress
    decreases n.commit - Applied(n.machine)
  {
    if Applied(n.machine) < n.commit { ApplyAllFrame(ApplyNext(n).node); }
  }

  /** Committing leaves the log and all progress alone when no configuration is in it. */
  lemma CommitFrame(n: Node)
    requires n.role.Leader? && Ok(n) && NoChanges(n.log)
    ensures var r := CommitAndApply(n).outcome.node;
      r.log == n.log && r.term == n.term && r.id == n.id && r.opts == n.opts && r.role.progress == n.role.progress
    ensures !CommitAndApply(n).stepDown
  {
    hide ApplyAll, AnswerReads, Configurations, AfterConfigurations;
    var target := CommitTarget(n, |n.log|);
    if target > n.commit {
      var n1 := n.(commit := target);
      ApplyAllFrame(n1);
      NoConfigurations(n.log, Applied(n.machine), target);
      CommitValue(n, target, ApplyAll(n1));
      AnswerReadsFrame(ApplyAll(n1).node);
    }
  }

  function Carry(n: Node, peer: NodeId, b: Batch): Envelope {
    Send(n, peer, Append(b.base, b.baseTerm, b.entries))
  }

  /** What the leader sends is what it emits. */
  lemma SendsEmitted(n: Node, peer: NodeId, probe: bool)
    requires n.role.Leader? && LeaderOk(n) && peer in n.role.progress
    ensures var r, emit := SendAppend(n, peer, probe), Emit(n.log, n.role.progress[peer], probe, n.opts.maxAppendEntries);
      r.node.role.Leader? && r.node.log == n.log && peer in r.node.role.progress && r.node.role.progress[peer] == emit.0
      && r.out == (if emit.1.Some? then multiset{Carry(n, peer, emit.1.value)} else multiset{})
      && r.node.term == n.term && r.node.id == n.id && r.node.opts == n.opts
  {
  }

  /** A leader's step on an answer. */
  lemma LeaderReacts(n: Node, e: Envelope, a: Answer)
    requires Ok(n) && n.role.Leader? && NoChanges(n.log) && e.from in n.role.progress
    requires e.message == AppendResponse(a.matchIndex, a.rejectIndex) && (a.matchIndex > 0) != (a.rejectIndex > 0)
    requires a.matchIndex <= |n.log| && a.rejectIndex <= |n.log|
    ensures var r, react := OnAppendResponse(n, e).outcome, React(n.log, n.role.progress[e.from], a, n.opts.maxAppendEntries);
      r.node.role.Leader? && r.node.log == n.log && e.from in r.node.role.progress && r.node.role.progress[e.from] == react.0
      && (react.1.Some? ==> Carry(n, e.from, react.1.value) in r.out)
      && r.node.term == n.term && r.node.id == n.id && r.node.opts == n.opts
    ensures !OnAppendResponse(n, e).stepDown
  {
    hide CommitAndApply, SendAppend, Emit;
    var n1, p := NotePeer(n, e.from), n.role.progress[e.from];
    if a.matchIndex > 0 {
      MatchedFrame(n1, e.from, a.matchIndex);
      SendsEmitted(OnMatch(n1, e.from, a.matchIndex).outcome.node, e.from, false);
    } else if a.rejectIndex > p.matchIndex && p.Regresses(a.rejectIndex) {
      SendsEmitted(SetProgress(n1, e.from, p.Regress(a.rejectIndex)), e.from, true);
    }
  }

  lemma MatchedFrame(n: Node, peer: NodeId, i: Index)
    requires Ok(n) && n.role.Leader? && NoChanges(n.log) && peer in n.role.progress && i <= |n.log|
    ensures var r := OnMatch(n, peer, i).outcome.node;
      r.log == n.log && r.term == n.term && r.id == n.id && r.opts == n.opts
      && r.role.progress == n.role.progress[peer := n.role.progress[peer].Advance(i)]
    ensures !OnMatch(n, peer, i).stepDown
  {
    hide CommitAndApply;
    if i > n.role.progress[peer].matchIndex {
      CommitFrame(SetProgress(n, peer, n.role.progress[peer].Advance(i)));
    }
  }

  // ------------------------------------------------ two nodes, step by step

  /** A leader and a follower in its term. */
  ghost predicate Paired(n: Node, m: Node) {
    && Ok(n) && Ok(m) && n.role.Leader? && m.role.Follower? && m.role.leader == Some(n.id) && m.term == n.term
    && NoChanges(n.log) && m.id in n.role.progress && n.id in m.membership.active.AllVoters() && n.opts.maxAppendEntries >= 1
    && Pair(n.log, m.log, m.commit, n.term, n.role.progress[m.id])
  }

  /** The two with a batch under way between them. */
  ghost predicate Talking(n: Node, m: Node, b: Batch) {
    Paired(n, m) && UnderWay(n.log, n.role.progress[m.id], b)
  }

  lemma FollowerSteps(n: Node, m: Node, b: Batch, timeout: Ticks)
    requires Talking(n, m, b)
    ensures Receive(m.log, m.commit, m.term, b).Some?
    ensures var r, receive := Step(m, Carry(n, m.id, b), timeout), Receive(m.log, m.commit, m.term, b).value;
      && Ok(r.node) && r.node.log == receive.0 && r.node.role == m.role.(leaderSeen := 0)
      && r.node.id == m.id && r.node.term == m.term && r.node.commit == m.commit && r.node.membership == m.membership
      && Envelope(m.id, n.term, n.id, AppendResponse(receive.1.matchIndex, receive.1.rejectIndex)) in r.out
  {
    var e, m1 := Carry(n, m.id, b), m.(role := m.role.(leaderSeen := 0));
    Round(n.log, m.log, m.commit, m.term, n.role.progress[m.id], b, n.opts.maxAppendEntries);
    StepKeepsOk(m, e, timeout);
    BatchShape(n.log, m.log, m.commit, n.term, n.role.progress[m.id], b);
    hide Pair, UnderWay, Ok, OnAppend, Splice, Receive, Step;
    StepIsAppend(m, e, timeout);
    FollowerReceives(m1, e, b);
    AppendFrame(m1, e);
  }

  lemma StepIsAppend(m: Node, e: Envelope, timeout: Ticks)
    requires Ok(m) && m.role.Follower? && m.role.leader == Some(e.from) && e.term == m.term && e.to == m.id
    requires KnownSender(m, e.from) && e.message.Append?
    ensures var m1 := m.(role := m.role.(leaderSeen := 0)); Ok(m1) && Step(m, e, timeout) == OnAppend(m1, e)
  {
    hide OnAppend, OnHeartbeat, OnRead, OnCampaign, OnForward, CandidateStep, LeaderStep;
  }

  lemma StepIsResponse(n: Node, e: Envelope, timeout: Ticks)
    requires Ok(n) && n.role.Leader? && e.term == n.term && e.to == n.id && KnownSender(n, e.from) && e.message.AppendResponse?
    requires !OnAppendResponse(n, e).stepDown
    ensures Step(n, e, timeout) == OnAppendResponse(n, e).outcome
  {
    hide OnAppendResponse, OnHeartbeatResponse, OnRequest, OnReadAck, NotePeer, StepDown, FollowerAtTerm, FollowerStep, CandidateStep, Ok;
    assert LeaderAtTerm(n, e) == OnAppendResponse(n, e);
  }

  lemma BatchShape(leader: seq<Entry>, follower: seq<Entry>, commit: Index, term: Term, p: Progress, b: Batch)
    requires Pair(leader, follower, commit, term, p) && UnderWay(leader, p, b) && NoChanges(leader)
    ensures NoChanges(b.entries) && (b.entries != [] ==> b.base == b.entries[0].index - 1)
  {
  }

  lemma AppendFrame(n: Node, e: Envelope)
    requires Ok(n) && n.role.Follower? && n.role.leader == Some(e.from) && e.message.Append? && NoChanges(e.message.entries)
    ensures var r := OnAppend(n, e).node; r.id == n.id && r.term == n.term && r.commit == n.commit && r.membership == n.membership
  {
    hide Splice;
    AdoptNothing(n.membership, e.message.entries);
  }

  lemma LeaderSteps(n: Node, m: Node, b: Batch, a: Answer, timeout: Ticks)
    requires Talking(n, m, b) && (a.matchIndex > 0) != (a.rejectIndex > 0) && a.matchIndex <= |n.log| && a.rejectIndex <= |n.log|
    ensures var r := Step(n, Envelope(m.id, n.term, n.id, AppendResponse(a.matchIndex, a.rejectIndex)), timeout);
      var react := React(n.log, n.role.progress[m.id], a, n.opts.maxAppendEntries);
      && Ok(r.node) && r.node.role.Leader? && r.node.log == n.log && r.node.term == n.term && r.node.id == n.id && r.node.opts == n.opts
      && m.id in r.node.role.progress && r.node.role.progress[m.id] == react.0
      && (react.1.Some? ==> Carry(r.node, m.id, react.1.value) in r.out)
  {
    var e := Envelope(m.id, n.term, n.id, AppendResponse(a.matchIndex, a.rejectIndex));
    StepKeepsOk(n, e, timeout);
    assert KnownSender(n, m.id) by { assert m.id in Peers(n); }
    hide OnAppendResponse, Step, React, Pair, UnderWay, Ok;
    LeaderReacts(n, e, a);
    StepIsResponse(n, e, timeout);
  }

  /** One round between the nodes: the follower's step on the Append, and the leader's on
      the answer; if it does not end the exchange, the next Append is among what the
      leader sends. */
  lemma NodesRound(n: Node, m: Node, b: Batch, timeout: Ticks) returns (answer: Envelope, next: Option<Batch>)
    requires Talking(n, m, b)
    ensures answer in Step(m, Carry(n, m.id, b), timeout).out && n.role.progress[m.id].matchIndex <= |n.log|
    ensures var m', r := Step(m, Carry(n, m.id, b), timeout).node, Step(n, answer, timeout);
      && m'.id == m.id && r.node.id == n.id && r.node.log == n.log && r.node.role.Leader? && m.id in r.node.role.progress
      && (next.None? ==> r.node.role.progress[m.id].matchIndex == |n.log| <= |m'.log| && m'.log[..|n.log|] == n.log)
      && (next.Some? ==>
            && Carry(r.node, m.id, next.value) in r.out && Talking(r.node, m', next.value)
            && (|n.log| - r.node.role.progress[m.id].matchIndex < |n.log| - n.role.progress[m.id].matchIndex
                || (r.node.role.progress[m.id].matchIndex == n.role.progress[m.id].matchIndex && next.value.base < b.base)))
  {
    var p := n.role.progress[m.id];
    FollowerSteps(n, m, b, timeout);
    var a := Receive(m.log, m.commit, m.term, b).value.1;
    Round(n.log, m.log, m.commit, m.term, p, b, n.opts.maxAppendEntries);
    AnswerShape(n.log, m.log, m.commit, m.term, p, b);
    LeaderSteps(n, m, b, a, timeout);
    hide Step, Receive, React, UnderWay, Ok;
    answer := Envelope(m.id, n.term, n.id, AppendResponse(a.matchIndex, a.rejectIndex));
    next := React(n.log, p, a, n.opts.maxAppendEntries).1;
    if next.None? { assert n.log[..|n.log|] == n.log; }
  }

  lemma AnswerShape(leader: seq<Entry>, follower: seq<Entry>, commit: Index, term: Term, p: Progress, b: Batch)
    requires Pair(leader, follower, commit, term, p) && UnderWay(leader, p, b)
    ensures var r := Receive(follower, commit, term, b); r.Some? && (r.value.1.matchIndex > 0) != (r.value.1.rejectIndex > 0)
  {
    hide Receive;
    if b.base == 0 || Has(follower, b.base, b.baseTerm) {
      Accepted(leader, follower, commit, term, p, b);
    } else {
      Rejected(leader, follower, commit, term, p, b);
    }
  }

  /** States and messages of an exchange that runs on its own. */
  datatype Talk = Talk(leaders: seq<Node>, followers: seq<Node>, appends: seq<Envelope>, answers: seq<Envelope>)

  /** Each Append is taken by the follower, each answer by the leader, and each next
      Append is among what the leader then sends. */
  ghost predicate Plays(t: Talk, timeout: Ticks) {
    && |t.leaders| == |t.followers| == |t.appends| + 1 && |t.answers| == |t.appends|
    && (forall i :: 0 <= i < |t.leaders| ==> Ok(t.leaders[i]) && Ok(t.followers[i]))
    && forall i :: 0 <= i < |t.appends| ==> PlaysRound(t, i, timeout)
  }

  ghost predicate PlaysRound(t: Talk, i: nat, timeout: Ticks)
    requires i < |t.appends| == |t.answers| && |t.leaders| == |t.followers| == |t.appends| + 1
    requires forall i :: 0 <= i < |t.leaders| ==> Ok(t.leaders[i]) && Ok(t.followers[i])
  {
    && t.followers[i + 1] == Step(t.followers[i], t.appends[i], timeout).node
    && t.answers[i] in Step(t.followers[i], t.appends[i], timeout).out
    && t.leaders[i + 1] == Step(t.leaders[i], t.answers[i], timeout).node
    && (i + 1 < |t.appends| ==> t.appends[i + 1] in Step(t.leaders[i], t.answers[i], timeout).out)
  }

  /** The exchange between two nodes ends by itself, with everything acknowledged and the
      follower holding the leader's log. */
  lemma {:induction false} NodesCatchUp(n: Node, m: Node, b: Batch, timeout: Ticks) returns (t: Talk)
    requires Talking(n, m, b)
    ensures Plays(t, timeout) && t.leaders[0] == n && t.followers[0] == m && t.appends != [] && t.appends[0] == Carry(n, m.id, b)
    ensures var n', m' := t.leaders[|t.appends|], t.followers[|t.appends|];
      && n'.role.Leader? && n'.log == n.log && m.id in n'.role.progress && n'.role.progress[m.id].matchIndex == |n.log|
      && |n.log| <= |m'.log| && m'.log[..|n.log|] == n.log
    decreases |n.log| - n.role.progress[m.id].matchIndex, b.base
  {
    hide Step, Ok, Pair, UnderWay, Carry;
    var e := Carry(n, m.id, b);
    var answer, next := NodesRound(n, m, b, timeout);
    StepKeepsOk(m, e, timeout);
    StepKeepsOk(n, answer, timeout);
    var n', m' := Step(n, answer, timeout).node, Step(m, e, timeout).node;
    if next.None? {
      t := Talk([n, n'], [m, m'], [e], [answer]);
    } else {
      var rest := NodesCatchUp(n', m', next.value, timeout);
      t := Talk([n] + rest.leaders, [m] + rest.followers, [e] + rest.appends, [answer] + rest.answers);
      OneMoreRound(n, m, e, answer, rest, timeout);
    }
  }

  lemma OneMoreRound(n: Node, m: Node, e: Envelope, answer: Envelope, rest: Talk, timeout: Ticks)
    requires Ok(n) && Ok(m) && Plays(rest, timeout) && rest.appends != []
    requires rest.followers[0] == Step(m, e, timeout).node && answer in Step(m, e, timeout).out
    requires rest.leaders[0] == Step(n, answer, timeout).node && rest.appends[0] in Step(n, answer, timeout).out
    ensures Plays(Talk([n] + rest.leaders, [m] + rest.followers, [e] + rest.appends, [answer] + rest.answers), timeout)
  {
    hide Step, Ok;
    var t := Talk([n] + rest.leaders, [m] + rest.followers, [e] + rest.appends, [answer] + rest.answers);
    forall i | 0 <= i < |t.appends| ensures PlaysRound(t, i, timeout) {
      if i > 0 { assert PlaysRound(rest, i - 1, timeout); }
    }
  }

  lemma ReadAckProgress(n: Node, peer: NodeId, serial: nat)
    requires n.role.Leader? && Ok(n) && peer in n.role.progress
    ensures var r, p := OnReadAck(n, peer, serial).node, n.role.progress[peer];
      r.role.Leader? && r.log == n.log && r.opts == n.opts && peer in r.role.progress
      && r.role.progress[peer] == p.AdvanceRead(serial)
  {
    hide AnswerReads;
    if serial > n.role.progress[peer].readSeq {
      AnswerReadsFrame(SetProgress(n, peer, n.role.progress[peer].AdvanceRead(serial)));
    }
  }

  /** Looking for the end of the log puts a batch under way. */
  lemma ProbeStarts(n: Node, peer: NodeId)
    requires n.role.Leader? && Ok(n) && peer in n.role.progress && n.opts.maxAppendEntries >= 1
    requires n.role.progress[peer].matchIndex < |n.log|
    ensures var r := Probe(n, peer, |n.log|);
      r.node.role.Leader? && peer in r.node.role.progress && r.node.role.progress[peer].matchIndex == n.role.progress[peer].matchIndex
      && exists b :: Carry(n, peer, b) in r.out && UnderWay(n.log, r.node.role.progress[peer], b)
  {
    hide SendAppend, Emit;
    var p := n.role.progress[peer].Regress(|n.log|);
    SendsEmitted(SetProgress(n, peer, p), peer, true);
    Emits(n.log, p, true, n.opts.maxAppendEntries);
    var b := Emit(n.log, p, true, n.opts.maxAppendEntries).1.value;
    assert Carry(n, peer, b) == Carry(SetProgress(n, peer, p), peer, b);
  }

  /** A heartbeat answered without a match starts the exchange wherever the leader
      stood, unless the peer has everything. */
  lemma HeartbeatStarts(n: Node, e: Envelope)
    requires Ok(n) && n.role.Leader? && e.from in n.role.progress && n.opts.maxAppendEntries >= 1
    requires e.message.HeartbeatResponse? && e.message.matchIndex == 0 && e.message.readSeq <= n.role.readSeq
    requires n.role.progress[e.from].matchIndex < |n.log|
    ensures var r := OnHeartbeatResponse(n, e).outcome;
      r.node.role.Leader? && r.node == n.(role := r.node.role) && e.from in r.node.role.progress
      && r.node.role.progress[e.from].matchIndex == n.role.progress[e.from].matchIndex
      && exists b :: Carry(n, e.from, b) in r.out && UnderWay(n.log, r.node.role.progress[e.from], b)
    ensures !OnHeartbeatResponse(n, e).stepDown
  {
    hide CommitAndApply, OnReadAck, Probe;
    var n1 := NotePeer(n, e.from);
    ReadAckProgress(n1, e.from, e.message.readSeq);
    OnReadAckFrame(n1, e.from, e.message.readSeq);
    var r2 := OnReadAck(n1, e.from, e.message.readSeq);
    ProbeStarts(r2.node, e.from);
    var r3 := Probe(r2.node, e.from, |n1.log|);
    var b :| Carry(r2.node, e.from, b) in r3.out && UnderWay(n.log, r3.node.role.progress[e.from], b);
    HeartbeatResponseValue(n, e, n1, r2, r3);
    assert Carry(n, e.from, b) in OnHeartbeatResponse(n, e).outcome.out;
  }

  // --------------------------------------------- from a heartbeat on

  /** The heartbeat that the leader sends to each peer. */
  function Beat(n: Node, peer: NodeId): Envelope
    requires n.role.Leader?
  {
    Send(n, peer, Heartbeat(|n.log|, n.commit, n.role.readSeq))
  }

  /** The follower answers whether it holds the leader's last entry, and with it the log. */
  lemma BeatAnswered(n: Node, m: Node, timeout: Ticks) returns (held: bool)
    requires Paired(n, m)
    ensures var r := Step(m, Beat(n, m.id), timeout);
      && Envelope(m.id, n.term, n.id, HeartbeatResponse(if held then |n.log| else 0, n.role.readSeq)) in r.out
      && r.node.id == m.id && r.node.log == m.log && Ok(r.node)
      && (!held ==> r.node == m.(role := m.role.(leaderSeen := 0)))
    ensures 0 < |n.log| && (held <==> Has(m.log, |n.log|, n.term)) && (held ==> |n.log| <= |m.log| && m.log[..|n.log|] == n.log)
  {
    var e, m1 := Beat(n, m.id), m.(role := m.role.(leaderSeen := 0));
    held := Has(m.log, |n.log|, n.term);
    LeaderNotEmpty(n);
    StepKeepsOk(m, e, timeout);
    StepIsHeartbeat(m, e, timeout);
    hide Step, Ok, Matched;
    if held {
      BeatHeld(n.log, m.log, n.term);
      assert MaybeApply(m1.(commit := n.commit)).log == m1.log;
    }
  }

  lemma LeaderNotEmpty(n: Node)
    requires Ok(n) && n.role.Leader?
    ensures n.commit <= |n.log| && 0 < |n.log| && n.log[|n.log| - 1].term == n.term
  {
  }

  lemma StepIsHeartbeat(m: Node, e: Envelope, timeout: Ticks)
    requires Ok(m) && m.role.Follower? && m.role.leader == Some(e.from) && e.term == m.term && e.to == m.id
    requires KnownSender(m, e.from) && e.message.Heartbeat?
    ensures var m1 := m.(role := m.role.(leaderSeen := 0)); Ok(m1) && Step(m, e, timeout) == OnHeartbeat(m1, e)
  {
    hide OnAppend, OnHeartbeat, OnRead, OnCampaign, OnForward, CandidateStep, LeaderStep;
  }

  lemma BeatHeld(leader: seq<Entry>, follower: seq<Entry>, term: Term)
    requires Matched(leader, follower) && 0 < |leader| && leader[|leader| - 1].term == term && Has(follower, |leader|, term)
    ensures |leader| <= |follower| && follower[..|leader|] == leader
  {
    assert leader[..|leader| - 1 + 1] == leader;
  }

  lemma StepIsHeartbeatResponse(n: Node, e: Envelope, timeout: Ticks)
    requires Ok(n) && n.role.Leader? && e.term == n.term && e.to == n.id && KnownSender(n, e.from) && e.message.HeartbeatResponse?
    requires !OnHeartbeatResponse(n, e).stepDown
    ensures Step(n, e, timeout) == OnHeartbeatResponse(n, e).outcome
  {
    hide OnAppendResponse, OnHeartbeatResponse, OnRequest, OnReadAck, NotePeer, StepDown, FollowerAtTerm, FollowerStep, CandidateStep, Ok;
    assert LeaderAtTerm(n, e) == OnHeartbeatResponse(n, e);
  }

  /** On the answer the leader either has everything acknowledged or a batch under way. */
  lemma BeatTaken(n: Node, m: Node, m': Node, held: bool, timeout: Ticks) returns (next: Option<Batch>)
    requires Paired(n, m) && m'.id == m.id && m'.log == m.log && (!held ==> m' == m.(role := m.role.(leaderSeen := 0)))
    requires 0 < |n.log| && (held <==> Has(m.log, |n.log|, n.term))
    ensures var r := Step(n, Envelope(m.id, n.term, n.id, HeartbeatResponse(if held then |n.log| else 0, n.role.readSeq)), timeout);
      && Ok(r.node) && r.node.role.Leader? && r.node.log == n.log && m.id in r.node.role.progress
      && (if held then next.None? && r.node.role.progress[m.id].matchIndex == |n.log|
          else next.Some? && Carry(r.node, m.id, next.value) in r.out && Talking(r.node, m', next.value))
  {
    var e := Envelope(m.id, n.term, n.id, HeartbeatResponse(if held then |n.log| else 0, n.role.readSeq));
    assert KnownSender(n, m.id) by { assert m.id in Peers(n); }
    StepKeepsOk(n, e, timeout);
    hide OnHeartbeatResponse, Step, Ok, UnderWay, Sound, Matched;
    next := None;
    if held {
      BeatMatches(n, e);
    } else {
      BehindBeat(n.log, m.log, m.commit, n.term, n.role.progress[m.id]);
      HeartbeatStarts(n, e);
      var b :| Carry(n, m.id, b) in OnHeartbeatResponse(n, e).outcome.out
        && UnderWay(n.log, OnHeartbeatResponse(n, e).outcome.node.role.progress[m.id], b);
      next := Some(b);
    }
    StepIsHeartbeatResponse(n, e, timeout);
    if !held { StillPaired(n, m, Step(n, e, timeout).node); }
  }

  lemma BeatMatches(n: Node, e: Envelope)
    requires Ok(n) && n.role.Leader? && NoChanges(n.log) && e.from in n.role.progress && 0 < |n.log|
    requires e.message == HeartbeatResponse(|n.log|, n.role.readSeq)
    ensures var r := OnHeartbeatResponse(n, e).outcome.node;
      r.role.Leader? && r.log == n.log && e.from in r.role.progress && r.role.progress[e.from].matchIndex == |n.log|
    ensures !OnHeartbeatResponse(n, e).stepDown
  {
    hide CommitAndApply, OnReadAck, OnMatch;
    var n1 := NotePeer(n, e.from);
    ReadAckProgress(n1, e.from, e.message.readSeq);
    OnReadAckFrame(n1, e.from, e.message.readSeq);
    var r2 := OnReadAck(n1, e.from, e.message.readSeq);
    MatchedFrame(r2.node, e.from, |n.log|);
    HeartbeatResponseValue(n, e, n1, r2, Stay(r2.node));
  }

  lemma BehindBeat(leader: seq<Entry>, follower: seq<Entry>, commit: Index, term: Term, p: Progress)
    requires Pair(leader, follower, commit, term, p) && 0 < |leader| && leader[|leader| - 1].term == term && !Has(follower, |leader|, term)
    ensures p.matchIndex < |leader|
  {
    hide Sound, Matched;
    assert leader[..|leader|] == leader;
    assert forall k :: 0 < k <= |leader| && k <= |follower| && follower[..k] == leader[..k] ==> follower[..k][k - 1] == leader[..k][k - 1];
  }

  lemma StillPaired(n: Node, m: Node, n': Node)
    requires Paired(n, m) && Ok(n') && n'.role.Leader? && n' == n.(role := n'.role)
    requires m.id in n'.role.progress && n'.role.progress[m.id].matchIndex == n.role.progress[m.id].matchIndex
    ensures Paired(n', m.(role := m.role.(leaderSeen := 0)))
  {
    hide Sound, Matched;
  }

  /** From a heartbeat on: the follower's answer to it either tells that it holds the
      leader's log, or makes the leader start an exchange that ends so. */
  lemma HeartbeatCatchesUp(n: Node, m: Node, timeout: Ticks) returns (answer: Envelope, t: Talk)
    requires Paired(n, m)
    ensures answer in Step(m, Beat(n, m.id), timeout).out
    ensures Plays(t, timeout) && t.leaders[0] == Step(n, answer, timeout).node && t.followers[0] == Step(m, Beat(n, m.id), timeout).node
    ensures t.appends != [] ==> t.appends[0] in Step(n, answer, timeout).out
    ensures var n', m' := t.leaders[|t.appends|], t.followers[|t.appends|];
      && n'.role.Leader? && n'.log == n.log && m.id in n'.role.progress && n'.role.progress[m.id].matchIndex == |n.log|
      && |n.log| <= |m'.log| && m'.log[..|n.log|] == n.log
  {
    hide Step, Ok, Pair, UnderWay, Carry, Has, NoChanges;
    var held := BeatAnswered(n, m, timeout);
    answer := Envelope(m.id, n.term, n.id, HeartbeatResponse(if held then |n.log| else 0, n.role.readSeq));
    var m1, n1 := Step(m, Beat(n, m.id), timeout).node, Step(n, answer, timeout).node;
    var next := BeatTaken(n, m, m1, held, timeout);
    if held {
      t := Talk([n1], [m1], [], []);
    } else {
      t := NodesCatchUp(n1, m1, next.value, timeout);
    }
  }

  // -------------------------------------------------------------- in runs

  lemma SoundInWorld(w: World, log: seq<Entry>, term: Term)
    requires Inv(w) && LogOk(w.h, log) && Indexed(log) && TermsUpTo(log, term)
    ensures Sound(log, term)
  {
    forall i, j | 0 <= i <= j < |log| ensures log[i].term <= log[j].term { TermsAscending(w, log, i, j); }
    forall i | 0 <= i < |log| ensures 0 < log[i].term {
      assert EntryOk(w.h, log, i);
      ReignAt(w, log[i].term);
    }
  }

  lemma MatchedInWorld(w: World, a: seq<Entry>, b: seq<Entry>)
    requires LogOk(w.h, a) && LogOk(w.h, b)
    ensures Matched(a, b)
  {
    forall i | 0 <= i < |a| && i < |b| && a[i].term == b[i].term ensures a[..i + 1] == b[..i + 1] { LogsMatch(w, a, b, i); }
  }

  /** In every run, a leader and a peer in its term are in a state from which the
      exchange succeeds. */
  lemma PairInRuns(cs: seq<Cluster>, events: seq<Event>, i: nat, a: NodeId, b: NodeId)
    requires Run(cs, events) && i < |cs| && a in cs[i].nodes && cs[i].nodes[a].role.Leader? && b in cs[i].nodes[a].role.progress
    requires b in cs[i].nodes && cs[i].nodes[b].term == cs[i].nodes[a].term
    ensures var n, m := cs[i].nodes[a], cs[i].nodes[b]; Pair(n.log, m.log, m.commit, n.term, n.role.progress[b])
  {
    hide Good, Follows, Inv, Linked, Replayed;
    Safety.AcknowledgementsAreSound(cs, events, i, a, b);
    var ws := Explained(cs, events);
    var n, m, w := cs[i].nodes[a], cs[i].nodes[b], ws[i];
    WorldAt(ws, cs, events, i);
    NodeAt(ws, cs, events, i, a);
    NodeAt(ws, cs, events, i, b);
    LeaderFacts(w, n);
    SoundInWorld(w, n.log, n.term);
    SoundInWorld(w, m.log, m.term);
    MatchedInWorld(w, n.log, m.log);
    CommitAgrees(w, b, n.term);
  }
}
