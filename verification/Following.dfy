/** What a node that does not lead does for its clients and for its leader
    (src/raft/node.rs:597-715, 751-813, 979-991, 1232-1236): requests go to the leader and
    answers come back, and every heartbeat and read is answered as its sender needs it. */
module Following {
  import opened Basics
  import opened Configuration
  import opened Machine
  import opened LogSpec
  import opened Messages
  import opened RaftNode
  import opened NodeInvariant
  import opened Elections

  /** The node once it has heard from the sender. */
  function Noticed(n: Node, from: NodeId): Node
    requires n.role.Follower?
  {
    n.(role := n.role.(leaderSeen := if n.role.leader == Some(from) then 0 else n.role.leaderSeen))
  }

  lemma NoticedOk(n: Node, from: NodeId)
    requires Ok(n) && n.role.Follower?
    ensures Ok(Noticed(n, from)) && Noticed(n, from).role.Follower?
  {
  }

  lemma OwnTermStep(n: Node, e: Envelope, timeout: Ticks)
    requires Ok(n) && n.role.Follower? && Reaches(n, e) && e.term == n.term && (e.message.ClientRequest? || e.message.ClientResponse?)
    ensures Step(n, e, timeout) == OnForward(Noticed(n, e.from), e)
  {
    StepAtTerm(n, e, timeout);
    assert n == n.(role := n.role.(leaderSeen := n.role.leaderSeen));
    hide Step, OnForward, Ok;
  }

  // ----------------------------------------------------- clients' requests

  /** A follower that knows a leader passes the requests of its own clients on to it and
      remembers them; without a leader, and to strangers, it says that they are aborted. */
  lemma RequestForwarded(n: Node, e: Envelope, timeout: Ticks)
    requires Ok(n) && n.role.Follower? && Reaches(n, e) && e.term == n.term && e.message.ClientRequest?
    ensures var id, n1 := e.message.id, Noticed(n, e.from);
      Step(n, e, timeout) ==
        if e.from == n.id && n.role.leader.Some? then
          Outcome(n1.(role := n1.role.(forwarded := n.role.forwarded + {id})), multiset{Envelope(n.id, n.term, n.role.leader.value, e.message)})
        else
          Outcome(n1, multiset{Envelope(n.id, n.term, e.from, ClientResponse(id, Failed(Abort)))})
  {
    OwnTermStep(n, e, timeout);
    hide Step, Ok;
  }

  /** An answer goes back to the client exactly if it comes from the leader and the request
      was forwarded and has not been answered yet. */
  lemma AnswerReturned(n: Node, e: Envelope, timeout: Ticks)
    requires Ok(n) && n.role.Follower? && Reaches(n, e) && e.term == n.term && e.message.ClientResponse?
    ensures var id, n1 := e.message.id, Noticed(n, e.from);
      Step(n, e, timeout) ==
        if n.role.leader == Some(e.from) && id in n.role.forwarded then
          Outcome(n1.(role := n1.role.(forwarded := n.role.forwarded - {id})), multiset{Envelope(n.id, n.term, n.id, e.message)})
        else Outcome(n1, multiset{})
  {
    OwnTermStep(n, e, timeout);
    hide Step, Ok;
  }

  /** There and back: a request passed on and answered by the leader leaves the follower as
      it was before, and its client with the leader's own answer. */
  lemma ThereAndBack(n: Node, e: Envelope, answer: Response, timeout: Ticks)
    requires Ok(n) && n.role.Follower? && e.term == n.term && e.from == e.to == n.id && e.message.ClientRequest?
    requires n.role.leader.Some? && n.role.leader != Some(n.id) && n.role.leader.value in n.membership.active.AllVoters()
    requires e.message.id !in n.role.forwarded
    ensures var n1 := Step(n, e, timeout).node;
      var back := Envelope(n.role.leader.value, n.term, n.id, ClientResponse(e.message.id, answer));
      Ok(n1) && Step(n1, back, timeout)
        == Outcome(n.(role := n.role.(leaderSeen := 0)), multiset{Envelope(n.id, n.term, n.id, ClientResponse(e.message.id, answer))})
  {
    RequestForwarded(n, e, timeout);
    StepKeepsOk(n, e, timeout);
    var n1 := Step(n, e, timeout).node;
    var back := Envelope(n.role.leader.value, n.term, n.id, ClientResponse(e.message.id, answer));
    AnswerReturned(n1, back, timeout);
    assert n.role.forwarded + {e.message.id} - {e.message.id} == n.role.forwarded;
    hide Step, Ok;
  }

  /** A candidate has no leader to pass requests on to. */
  lemma CandidateAborts(n: Node, e: Envelope, timeout: Ticks)
    requires Ok(n) && n.role.Candidate? && Reaches(n, e) && e.term == n.term && e.message.ClientRequest?
    ensures Step(n, e, timeout) == Outcome(n, multiset{Envelope(n.id, n.term, e.from, ClientResponse(e.message.id, Failed(Abort)))})
  {
    hide FollowerAtTerm, Ok;
  }

  /** Some answer to the request goes to the node's own client. */
  ghost predicate Answered(n: Node, out: multiset<Envelope>, id: RequestId) {
    exists e :: e in out && e.to == n.id && e.message.ClientResponse? && e.message.id == id
  }

  /** What was forwarded is still waited for, or answered. */
  ghost predicate KeepsTrack(n: Node, r: Outcome)
    requires n.role.Follower?
  {
    r.node.role.Halted? || forall id :: id in n.role.forwarded ==>
      (r.node.role.Follower? && id in r.node.role.forwarded) || Answered(n, r.out, id)
  }

  lemma AbortsAll(n: Node, out: multiset<Envelope>)
    requires n.role.Follower? && AbortForwarded(n) <= out
    ensures forall id :: id in n.role.forwarded ==> Answered(n, out, id)
  {
    AbortsEach(n);
    forall id | id in n.role.forwarded ensures Answered(n, out, id) {
      assert Envelope(n.id, n.term, n.id, ClientResponse(id, Failed(Abort))) in out;
    }
  }

  lemma FollowKeepsTrack(n: Node, from: NodeId)
    requires n.role.Follower? && Follow(n, from).Some?
    ensures KeepsTrack(n, Follow(n, from).value)
  {
    AbortsAll(n, AbortForwarded(n));
  }

  lemma KeepsTrackThen(n: Node, r: Outcome, r': Outcome)
    requires n.role.Follower? && KeepsTrack(n, r) && (r.node.role.Halted? ==> r'.node.role.Halted?)
    requires r'.node.role.Halted? || r.out <= r'.out
    requires r.node.role.Follower? ==>
      r'.node.role.Halted? || (r'.node.role.Follower? && r.node.role.forwarded <= r'.node.role.forwarded)
    ensures KeepsTrack(n, r')
  {
  }

  lemma LeadersMessageTracked(n: Node, e: Envelope)
    requires Ok(n) && n.role.Follower? && FromLeader(e.message)
    ensures KeepsTrack(n, match e.message
                          case Heartbeat(_, _, _) => OnHeartbeat(n, e)
                          case Append(_, _, _) => OnAppend(n, e)
                          case _ => OnRead(n, e))
  {
    hide Splice, MaybeApply, AdoptMembership, Ok, Answered;
    if Follow(n, e.from).Some? {
      var f := Follow(n, e.from).value;
      FollowKeepsTrack(n, e.from);
      FollowKeeps(n, e.from);
      hide Follow;
      match e.message
      case Heartbeat(_, _, _) => KeepsTrackThen(n, f, OnHeartbeat(n, e));
      case Append(_, _, _) => KeepsTrackThen(n, f, OnAppend(n, e));
      case Read(_) => KeepsTrackThen(n, f, OnRead(n, e));
      case _ =>
    }
  }

  lemma AtTermTracked(n: Node, e: Envelope)
    requires Ok(n) && n.role.Follower?
    ensures KeepsTrack(n, FollowerAtTerm(n, e))
  {
    var n1 := if n.role.leader == Some(e.from) then n.(role := n.role.(leaderSeen := 0)) else n;
    hide OnHeartbeat, OnAppend, OnRead, Ok;
    if FromLeader(e.message) {
      LeadersMessageTracked(n1, e);
    } else if e.message.ClientResponse? && n.role.leader == Some(e.from) && e.message.id in n.role.forwarded {
      assert FollowerAtTerm(n, e).out == multiset{Envelope(n.id, n.term, n.id, e.message)};
      assert Answered(n, FollowerAtTerm(n, e).out, e.message.id);
    } else {
      assert !FollowerAtTerm(n, e).node.role.Halted? ==>
        FollowerAtTerm(n, e).node.role.Follower? && n.role.forwarded <= FollowerAtTerm(n, e).node.role.forwarded;
    }
  }

  lemma StepTracked(n: Node, e: Envelope, timeout: Ticks)
    requires Ok(n) && n.role.Follower?
    ensures KeepsTrack(n, Step(n, e, timeout))
  {
    hide FollowerAtTerm, Ok, Answered, AbortForwarded;
    if Reaches(n, e) && !IsPreVote(e.message) && e.term > n.term {
      DeposedMeans(n, e.term, timeout);
      LaterTermStep(n, e, timeout);
      AbortsAll(n, Step(n, e, timeout).out);
    } else if Reaches(n, e) && !IsPreVote(e.message) && e.term == n.term {
      AtTermTracked(n, e);
      StepAtTerm(n, e, timeout);
    }
  }

  lemma TickTracked(n: Node, timeout: Ticks)
    requires Ok(n) && n.role.Follower?
    ensures KeepsTrack(n, Tick(n, timeout))
  {
    FollowerTimesOut(n, timeout);
    hide Tick, Ok, Stands;
    forall id | id in n.role.forwarded && n.role.leaderSeen + 1 >= n.role.electionTimeout ensures Answered(n, Tick(n, timeout).out, id) {
      assert Envelope(n.id, n.term, n.id, ClientResponse(id, Failed(Abort))) in Tick(n, timeout).out;
    }
  }

  /** No forwarded request is lost: whatever a follower handles, each one is waited for
      still, or its client has an answer. */
  lemma NoneForgotten(n: Node, e: Envelope, timeout: Ticks, id: RequestId)
    requires Ok(n) && n.role.Follower? && id in n.role.forwarded
    ensures var r := Step(n, e, timeout);
      r.node.role.Halted? || (r.node.role.Follower? && id in r.node.role.forwarded)
      || exists m :: m in r.out && m.to == n.id && m.message.ClientResponse? && m.message.id == id
    ensures var r := Tick(n, timeout);
      r.node.role.Halted? || (r.node.role.Follower? && id in r.node.role.forwarded)
      || exists m :: m in r.out && m.to == n.id && m.message.ClientResponse? && m.message.id == id
  {
    hide Step, Tick, Ok;
    StepTracked(n, e, timeout);
    TickTracked(n, timeout);
  }

  // ------------------------------------------------- the leader's messages

  /** The log holds the leader's entry at that index: the one of the leader's own term. */
  predicate HoldsLast(n: Node, index: Index, term: Term) {
    1 <= index <= |n.log| && n.log[index - 1].term == term
  }

  /** A heartbeat is answered with its read number, and with the leader's last index if the
      follower holds that entry and with 0 otherwise. In the first case, and only then, a
      later commit index is taken over, and everything up to it is applied. */
  ghost predicate AnswersBeat(n: Node, e: Envelope, r: Outcome)
    requires n.role.Follower? && e.message.Heartbeat?
  {
    var m := e.message;
    var holds := HoldsLast(n, m.lastIndex, n.term);
    var answer := HeartbeatResponse(if holds then m.lastIndex else 0, m.readSeq);
    && r.node.role.Follower? && r.node.role.leader == Some(e.from) && r.node.log == n.log
    && r.node.term == n.term && r.node.vote == n.vote
    && r.out[Envelope(n.id, n.term, e.from, answer)] == 1
    && (forall x :: x in r.out && x.message.HeartbeatResponse? ==> x.message == answer)
    && (if holds && m.commitIndex > n.commit then r.node.commit == m.commitIndex == Applied(r.node.machine)
        else r.node.commit == n.commit && r.node.machine == n.machine)
  }

  lemma HeartbeatMeans(n: Node, e: Envelope, timeout: Ticks)
    requires Ok(n) && n.role.Follower? && Reaches(n, e) && e.term == n.term && e.message.Heartbeat?
    requires e.message.commitIndex <= e.message.lastIndex && 0 < n.term && e.from in n.membership.active.AllVoters()
    requires n.role.leader == None || n.role.leader == Some(e.from)
    ensures AnswersBeat(n, e, Step(n, e, timeout))
  {
    StepAtTerm(n, e, timeout);
    var n1 := Noticed(n, e.from);
    assert n == n.(role := n.role.(leaderSeen := n.role.leaderSeen));
    NoticedOk(n, e.from);
    assert Step(n, e, timeout) == OnHeartbeat(n1, e);
    hide Step, MaybeApply;
    BeatMeans(n1, e);
  }

  lemma BeatMeans(n: Node, e: Envelope)
    requires Ok(n) && n.role.Follower? && e.message.Heartbeat? && e.message.commitIndex <= e.message.lastIndex && 0 < n.term == e.term
    requires e.from in n.membership.active.AllVoters() && (n.role.leader == None || n.role.leader == Some(e.from))
    ensures AnswersBeat(n, e, OnHeartbeat(n, e))
  {
    var f := Follow(n, e.from).value;
    FollowKeeps(n, e.from);
    assert f.node.role.Follower? && f.node.role.leader == Some(e.from) && forall x :: x in f.out ==> x.message.ClientResponse?;
    hide Follow, AnswersBeat, OnHeartbeat, Ok;
    BeatTaken(n, e, f);
    BeatAnswered(n, e, f, OnHeartbeat(n, e));
  }

  /** What a heartbeat comes to, once the sender is followed. */
  predicate BeatFrom(n: Node, e: Envelope, f: Outcome, r: Outcome)
    requires n.role.Follower? && e.message.Heartbeat?
  {
    var m := e.message;
    var holds := HoldsLast(n, m.lastIndex, n.term);
    && r.node == f.node.(commit := r.node.commit, machine := r.node.machine, membership := r.node.membership)
    && (if holds && m.commitIndex > n.commit then r.node.commit == m.commitIndex == Applied(r.node.machine) else r.node == f.node)
    && r.out == f.out + multiset{Send(n, e.from, HeartbeatResponse(if holds then m.lastIndex else 0, m.readSeq))}
  }

  lemma BeatTaken(n: Node, e: Envelope, f: Outcome)
    requires Ok(n) && n.role.Follower? && e.message.Heartbeat? && e.term == n.term && Follow(n, e.from) == Some(f)
    requires f.node == n.(role := f.node.role) && f.node.role.Follower? && e.message.commitIndex <= e.message.lastIndex
    ensures BeatFrom(n, e, f, OnHeartbeat(n, e))
  {
    hide Follow, MaybeApply;
  }

  lemma BeatAnswered(n: Node, e: Envelope, f: Outcome, r: Outcome)
    requires n.role.Follower? && e.message.Heartbeat? && f.node == n.(role := f.node.role) && BeatFrom(n, e, f, r)
    requires f.node.role.Follower? && f.node.role.leader == Some(e.from) && forall x :: x in f.out ==> x.message.ClientResponse?
    ensures AnswersBeat(n, e, r)
  {
  }

  /** What the log is after entries were taken over behind `base`: itself if it has them all
      there, and otherwise what it had up to `base` with them behind. */
  function TakenOver(log: seq<Entry>, base: Index, es: seq<Entry>): seq<Entry> {
    if base + |es| <= |log| && log[base..base + |es|] == es then log else log[..Min(base, |log|)] + es
  }

  /** An Append is accepted exactly if the entry it builds on is held, and acknowledged with
      the index of its last entry; otherwise the log stays, and the leader is told from
      where on entries are missing. Nothing is committed by it. */
  ghost predicate AnswersAppend(n: Node, e: Envelope, r: Outcome)
    requires n.role.Follower? && e.message.Append?
  {
    var m := e.message;
    var accepted := m.baseIndex == 0 || HoldsLast(n, m.baseIndex, m.baseTerm);
    var answer := if accepted then AppendResponse(m.baseIndex + |m.entries|, 0)
                  else AppendResponse(0, if m.baseIndex <= |n.log| then m.baseIndex else |n.log| + 1);
    && r.node.role.Follower? && r.node.role.leader == Some(e.from)
    && r.node.commit == n.commit && r.node.machine == n.machine && r.node.term == n.term && r.node.vote == n.vote
    && r.node.log == (if accepted then TakenOver(n.log, m.baseIndex, m.entries) else n.log)
    && r.out[Envelope(n.id, n.term, e.from, answer)] == 1
    && forall x :: x in r.out && x.message.AppendResponse? ==> x.message == answer
  }

  lemma AppendMeans(n: Node, e: Envelope, timeout: Ticks)
    requires Ok(n) && TermsAscend(n.log) && n.role.Follower? && Reaches(n, e) && e.term == n.term && e.message.Append?
    requires 0 < n.term && e.from in n.membership.active.AllVoters() && (n.role.leader == None || n.role.leader == Some(e.from))
    requires !Step(n, e, timeout).node.role.Halted?
    ensures AnswersAppend(n, e, Step(n, e, timeout))
  {
    StepAtTerm(n, e, timeout);
    var n1 := Noticed(n, e.from);
    assert n == n.(role := n.role.(leaderSeen := n.role.leaderSeen));
    NoticedOk(n, e.from);
    assert Step(n, e, timeout) == OnAppend(n1, e);
    hide Step, Ok;
    PieceTaken(n1, e);
  }

  lemma PieceTaken(n: Node, e: Envelope)
    requires Ok(n) && TermsAscend(n.log) && n.role.Follower? && e.message.Append? && 0 < n.term == e.term
    requires e.from in n.membership.active.AllVoters() && (n.role.leader == None || n.role.leader == Some(e.from))
    requires !OnAppend(n, e).node.role.Halted?
    ensures AnswersAppend(n, e, OnAppend(n, e))
  {
    var m := e.message;
    var f := Follow(n, e.from).value;
    FollowKeeps(n, e.from);
    assert f.node.role.Follower? && f.node.role.leader == Some(e.from) && forall x :: x in f.out ==> x.message.ClientResponse?;
    hide Follow, AnswersAppend, OnAppend, Splice, Ok, TakenOver;
    Spliced(n, e, f);
    if m.baseIndex == 0 || HoldsLast(n, m.baseIndex, m.baseTerm) {
      SplicedMeans(n, m.entries, m.baseIndex);
    }
    AnswerMeans(n, e, f, OnAppend(n, e));
  }

  /** What an Append that halts no one comes to, once the sender is followed. */
  predicate SplicedFrom(n: Node, e: Envelope, f: Outcome, r: Outcome)
    requires n.role.Follower? && e.message.Append?
  {
    var m := e.message;
    if m.baseIndex == 0 || HoldsLast(n, m.baseIndex, m.baseTerm) then
      && (m.entries == [] || m.baseIndex == m.entries[0].index - 1)
      && var log := Splice(n.log, 1, n.commit, n.term, m.entries);
         log.Some? && r.node == f.node.(log := log.value, membership := r.node.membership)
         && r.out == f.out + multiset{Send(n, e.from, AppendResponse(m.baseIndex + |m.entries|, 0))}
    else r == Outcome(f.node, f.out + multiset{Send(n, e.from, AppendResponse(0, Min(m.baseIndex, |n.log| + 1)))})
  }

  lemma Spliced(n: Node, e: Envelope, f: Outcome)
    requires Ok(n) && n.role.Follower? && e.message.Append? && Follow(n, e.from) == Some(f)
    requires f.node == n.(role := f.node.role) && f.node.role.Follower? && !OnAppend(n, e).node.role.Halted?
    ensures SplicedFrom(n, e, f, OnAppend(n, e))
  {
    hide Follow, Splice, AdoptMembership;
  }

  lemma AnswerMeans(n: Node, e: Envelope, f: Outcome, r: Outcome)
    requires n.role.Follower? && e.message.Append? && f.node == n.(role := f.node.role) && SplicedFrom(n, e, f, r)
    requires f.node.role.Follower? && f.node.role.leader == Some(e.from) && forall x :: x in f.out ==> x.message.ClientResponse?
    requires (e.message.baseIndex == 0 || HoldsLast(n, e.message.baseIndex, e.message.baseTerm)) ==>
      Splice(n.log, 1, n.commit, n.term, e.message.entries) == Some(TakenOver(n.log, e.message.baseIndex, e.message.entries))
    ensures AnswersAppend(n, e, r)
  {
    hide Splice, TakenOver;
  }

  lemma SplicedMeans(n: Node, es: seq<Entry>, base: Index)
    requires Ok(n) && TermsAscend(n.log) && Splice(n.log, 1, n.commit, n.term, es).Some?
    requires if es == [] then base <= |n.log| else base == es[0].index - 1
    ensures base <= |n.log| && Splice(n.log, 1, n.commit, n.term, es) == Some(TakenOver(n.log, base, es))
  {
    hide Matching, WellShaped, Touches, LeaderOk, TermsAscend;
    if es != [] {
      SpliceMeaning(n.log, 1, n.commit, n.term, es);
      hide Splice;
    }
  }

  /** A read is answered with its number by whoever follows the sender. */
  lemma ReadMeans(n: Node, e: Envelope, timeout: Ticks)
    requires Ok(n) && n.role.Follower? && Reaches(n, e) && e.term == n.term && e.message.Read?
    requires 0 < n.term && e.from in n.membership.active.AllVoters() && (n.role.leader == None || n.role.leader == Some(e.from))
    ensures var r := Step(n, e, timeout);
      && r.node == n.(role := r.node.role) && r.node.role.Follower? && r.node.role.leader == Some(e.from)
      && r.out[Envelope(n.id, n.term, e.from, ReadResponse(e.message.readSeq))] == 1
      && forall x :: x in r.out && x.message.ReadResponse? ==> x.message.readSeq == e.message.readSeq
  {
    StepAtTerm(n, e, timeout);
    var n1 := Noticed(n, e.from);
    assert n == n.(role := n.role.(leaderSeen := n.role.leaderSeen));
    assert Step(n, e, timeout) == OnRead(n1, e);
    hide Step, Ok;
    ReadFollowed(n1, e);
  }

  lemma ReadFollowed(n: Node, e: Envelope)
    requires n.role.Follower? && e.message.Read? && 0 < n.term == e.term
    requires e.from in n.membership.active.AllVoters() && (n.role.leader == None || n.role.leader == Some(e.from))
    ensures var r := OnRead(n, e);
      && r.node == n.(role := r.node.role) && r.node.role.Follower? && r.node.role.leader == Some(e.from)
      && r.out[Envelope(n.id, n.term, e.from, ReadResponse(e.message.readSeq))] == 1
      && forall x :: x in r.out && x.message.ReadResponse? ==> x.message.readSeq == e.message.readSeq
  {
    var f := Follow(n, e.from).value;
    assert f.node.role.Follower? && forall x :: x in f.out ==> x.message.ClientResponse?;
    hide Follow, AbortForwarded;
  }
}
