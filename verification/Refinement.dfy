/** Every step of a node's code is a composition of protocol moves: from a node
    represented in a world, a step leads to a node represented in a later world,
    and everything it sends is true there. */
module Refinement {
  import opened Basics
  import opened Configuration
  import opened Machine
  import opened LogSpec
  import opened Messages
  import opened RaftNode
  import opened Protocol
  import opened ProtocolSteps

  ghost function DutyOf(role: Role): Duty {
    match role
    case Leader(_, _, _, _, _, _, _) => Leading
    case Candidate(_, _, _, phase) => if phase == Election then Standing else Idle
    case _ => Idle
  }

  ghost function ViewOf(n: Node): View {
    View(n.term, n.vote, n.log, n.commit, DutyOf(n.role))
  }

  ghost predicate NoChanges(es: seq<Entry>) {
    forall i :: 0 <= i < |es| ==> es[i].membership.None?
  }

  /** No configuration has ever been proposed. */
  ghost predicate Fixed(config: Membership, n: Node) {
    n.membership == MembershipState(Simple(config), false) && NoChanges(n.log)
  }

  // -------------------------------------------------- what messages assert

  ghost predicate MessageTrue(w: World, e: Envelope) {
    var t := e.term;
    match e.message
    case Campaign(lastIndex, lastTerm) =>
      At(e.from, t) in w.h.campaigns
      && lastIndex == |w.h.campaigns[At(e.from, t)]| && lastTerm == LastTerm(w.h.campaigns[At(e.from, t)])
    case CampaignResponse(vote) =>
      vote ==> At(e.from, t) in w.h.votes && w.h.votes[At(e.from, t)] == e.to
    case Heartbeat(lastIndex, commitIndex, readSeq) =>
      t in w.h.reigns && w.h.reigns[t].leader == e.from
      && commitIndex <= lastIndex <= |w.h.reigns[t].log| && readSeq <= w.h.reigns[t].readSeq
      && Committed(w.h, w.h.reigns[t].log, commitIndex, t)
    case HeartbeatResponse(matchIndex, readSeq) =>
      t in w.h.reigns && w.h.reigns[t].leader == e.to
      && matchIndex <= Ack(w.h, e.from, t) && readSeq <= ReadAck(w.h, e.from, t)
    case Append(base, baseTerm, es) =>
      t in w.h.reigns && w.h.reigns[t].leader == e.from && NoChanges(es)
      && base + |es| <= |w.h.reigns[t].log|
      && baseTerm == TermAt(w.h.reigns[t].log, base)
      && es == w.h.reigns[t].log[base..base + |es|]
      && (base == 0 ==> es != [])
    case AppendResponse(matchIndex, rejectIndex) =>
      t in w.h.reigns && w.h.reigns[t].leader == e.to
      && matchIndex <= Ack(w.h, e.from, t) && rejectIndex <= |w.h.reigns[t].log|
      && (matchIndex == 0) != (rejectIndex == 0)
    case Read(readSeq) =>
      t in w.h.reigns && w.h.reigns[t].leader == e.from && readSeq <= w.h.reigns[t].readSeq
    case ReadResponse(readSeq) =>
      t in w.h.reigns && w.h.reigns[t].leader == e.to && readSeq <= ReadAck(w.h, e.from, t)
    case ClientRequest(_, request) => !request.ChangeMembership?
    case ClientResponse(id, response) => ResponseTrue(w, id, response)
    case _ => true
  }

  /** Entries that some leader has committed. */
  ghost predicate IsCommitted(h: History, log: seq<Entry>) {
    exists s :: CommittedBy(h, log, |log|, s)
  }

  /** The answer is the query's value on a committed log that contains everything
      committed anywhere when the request arrived. */
  ghost predicate Fresh(w: World, k: ReadId, log: seq<Entry>, id: RequestId, answer: ReadReply) {
    && k in w.h.asked && w.h.asked[k].id == id
    && IsCommitted(w.h, log)
    && answer == Machine.Read(Replay(log), w.h.asked[k].query)
    && forall s :: s in w.h.asked[k].committed ==> w.h.asked[k].committed[s] <= log
  }

  /** The reply is what the request's command gave at the index where it was put. */
  ghost predicate Executed(w: World, k: Slot, log: seq<Entry>, id: RequestId, reply: Reply) {
    && k in w.h.wrote && w.h.wrote[k].id == id
    && IsCommitted(w.h, log)
    && 0 < |log| == k.index
    && log[|log| - 1].term == k.term && log[|log| - 1].command == Some(w.h.wrote[k].command)
    && reply == Apply(Replay(log[..|log| - 1]), log[|log| - 1]).1
  }

  ghost predicate ResponseTrue(w: World, id: RequestId, response: Response) {
    match response
    case ReadResult(answer) => exists k, log :: Fresh(w, k, log, id, answer)
    case WriteResult(reply) => exists k, log :: Executed(w, k, log, id, reply)
    case _ => true
  }

  lemma ResponseStable(w: World, w': World, id: RequestId, response: Response)
    requires HistoryLe(w.h, w'.h) && ResponseTrue(w, id, response)
    ensures ResponseTrue(w', id, response)
  {
    match response
    case ReadResult(answer) =>
      var k, log :| Fresh(w, k, log, id, answer);
      IsCommittedStable(w.h, w'.h, log);
      assert Fresh(w', k, log, id, answer);
    case WriteResult(reply) =>
      var k, log :| Executed(w, k, log, id, reply);
      IsCommittedStable(w.h, w'.h, log);
      assert Executed(w', k, log, id, reply);
    case _ =>
  }

  lemma IsCommittedStable(h: History, h': History, log: seq<Entry>)
    requires HistoryLe(h, h') && IsCommitted(h, log)
    ensures IsCommitted(h', log)
  {
    var s :| CommittedBy(h, log, |log|, s);
    CommittedByStable(h, h', log, |log|, s);
  }

  ghost predicate MsgOk(w: World, e: Envelope) {
    e.from in w.nodes && MessageTrue(w, e)
  }

  ghost predicate MsgsOk(w: World, out: multiset<Envelope>) {
    forall e :: e in out ==> MsgOk(w, e)
  }

  lemma AppendStable(w: World, w': World, e: Envelope)
    requires Le(w, w') && MsgOk(w, e) && e.message.Append?
    ensures MsgOk(w', e)
  {
    var base, k := e.message.baseIndex, e.message.baseIndex + |e.message.entries|;
    var r, r' := w.h.reigns[e.term], w'.h.reigns[e.term];
    assert ReignLe(r, r');
    AgreeShorter(r.log, r'.log, |r.log|, k);
    assert r'.log[base..k] == r'.log[..k][base..];
    assert r.log[base..k] == r.log[..k][base..];
    if base > 0 { AgreeAt(r.log, r'.log, |r.log|, base - 1); }
  }

  lemma HeartbeatStable(w: World, w': World, e: Envelope)
    requires Le(w, w') && MsgOk(w, e) && e.message.Heartbeat?
    ensures MsgOk(w', e)
  {
    var t, c := e.term, e.message.commitIndex;
    var r, r' := w.h.reigns[t], w'.h.reigns[t];
    assert ReignLe(r, r');
    if c != 0 {
      var s: Term :| s <= t && CommittedBy(w.h, r.log, c, s);
      CommittedByStable(w.h, w'.h, r.log, c, s);
      AgreeShorter(r.log, r'.log, |r.log|, c);
      AgreeChain(r'.log, r.log, w'.h.reigns[s].log, c);
      assert CommittedBy(w'.h, r'.log, c, s);
    }
  }

  lemma MsgStable(w: World, w': World, e: Envelope)
    requires Le(w, w') && MsgOk(w, e)
    ensures MsgOk(w', e)
  {
    match e.message
    case Append(_, _, _) => AppendStable(w, w', e);
    case Heartbeat(_, _, _) => HeartbeatStable(w, w', e);
    case ClientResponse(id, response) => ResponseStable(w, w', id, response);
    case _ =>
      hide Committed, ResponseTrue;
      assert forall t :: t in w.h.reigns ==> ReignLe(w.h.reigns[t], w'.h.reigns[t]);
  }

  lemma MsgsStable(w: World, w': World, out: multiset<Envelope>)
    requires Le(w, w') && MsgsOk(w, out)
    ensures MsgsOk(w', out)
  {
    forall e | e in out ensures MsgOk(w', e) { MsgStable(w, w', e); }
  }

  lemma MsgsPlus(w: World, out: multiset<Envelope>, e: Envelope)
    requires MsgsOk(w, out) && MsgOk(w, e)
    ensures MsgsOk(w, out + multiset{e})
  {
  }

  // ------------------------------------------------ how nodes are represented

  ghost predicate Asked(h: History, t: Term, read: PendingRead) {
    var k := ReadId(t, read.serial);
    k in h.asked && h.asked[k].id == read.client.id && h.asked[k].query == read.query
  }

  ghost predicate Wrote(h: History, t: Term, i: Index, id: RequestId) {
    Slot(t, i) in h.wrote && h.wrote[Slot(t, i)].id == id
  }

  ghost predicate Linked(w: World, n: Node) {
    match n.role
    case Follower(leader, _, _, _) =>
      leader.Some? ==> n.term in w.h.reigns && w.h.reigns[n.term].leader == leader.value
    case Candidate(votes, _, _, phase) =>
      phase == Election ==>
        n.term >= 1 && n.vote == Some(n.id) && n.id in votes
        && forall v :: v in votes ==> v in w.nodes && At(v, n.term) in w.h.votes && w.h.votes[At(v, n.term)] == n.id
    case Leader(progress, writes, _, pending, readSeq, _, _) =>
      n.term in w.h.reigns && readSeq == w.h.reigns[n.term].readSeq
      && (forall p :: p in progress ==>
            progress[p].matchIndex <= Ack(w.h, p, n.term) && progress[p].readSeq <= ReadAck(w.h, p, n.term))
      && readSeq <= ReadAck(w.h, n.id, n.term)
      && (forall i :: 0 <= i < |pending| ==> Asked(w.h, n.term, pending[i]))
      && (forall i :: i in writes ==> Wrote(w.h, n.term, i, writes[i].id))
    case Halted => true
  }

  ghost predicate Replayed(n: Node) {
    Applied(n.machine) <= n.commit <= |n.log| && n.machine == Replay(n.log[..Applied(n.machine)])
  }

  ghost predicate Rep(w: World, n: Node) {
    && Inv(w)
    && n.id in w.nodes && w.nodes[n.id] == ViewOf(n)
    && Ok(n) && Fixed(w.config, n) && Replayed(n) && Linked(w, n)
    && n.opts.maxAppendEntries >= 1
  }

  /** The world moved forward, only node id acted, and no request was recorded. */
  ghost predicate Moves(w: World, w': World, id: NodeId) {
    && Advances(w, w', id)
    && w'.h.asked == w.h.asked && w'.h.wrote == w.h.wrote
  }

  /** Node id forgot nothing committed, and whatever leaders committed it still holds
      as committed. */
  ghost predicate Commits(w: World, w': World, id: NodeId)
    requires id in w.nodes && id in w'.nodes
  {
    var v, v' := w.nodes[id], w'.nodes[id];
    && v.commit <= v'.commit && Agree(v'.log, v.log, v.commit)
    && forall t {:trigger Witnessed(w, w', id, t)} :: t in w'.h.reigns ==> Witnessed(w, w', id, t)
  }

  ghost predicate Witnessed(w: World, w': World, id: NodeId, t: Term)
    requires id in w'.nodes && t in w'.h.reigns
  {
    var v', c := w'.nodes[id], w'.h.reigns[t].committed;
    || c == 0
    || (t in w.h.reigns && w.h.reigns[t].committed == c)
    || (c <= v'.commit && Agree(v'.log, w'.h.reigns[t].log, c))
  }

  /** The world moved forward, and only node id acted. */
  ghost predicate Advances(w: World, w': World, id: NodeId) {
    && Le(w, w') && id in w.nodes && id in w'.nodes && Commits(w, w', id)
    && (forall m {:trigger w'.nodes[m]} :: m in w.nodes && m != id ==> w'.nodes[m] == w.nodes[m])
    && (forall t {:trigger t in w'.h.reigns} :: t in w.h.reigns && w.h.reigns[t].leader != id ==> t in w'.h.reigns && w'.h.reigns[t] == w.h.reigns[t])
  }

  lemma LeTransitive(w: World, w1: World, w2: World)
    requires Le(w, w1) && Le(w1, w2)
    ensures Le(w, w2)
  {
    forall t | t in w.h.reigns ensures t in w2.h.reigns && ReignLe(w.h.reigns[t], w2.h.reigns[t]) {
      var r, r1, r2 := w.h.reigns[t], w1.h.reigns[t], w2.h.reigns[t];
      assert ReignLe(r, r1) && ReignLe(r1, r2);
      AgreeShorter(r1.log, r2.log, |r1.log|, |r.log|);
    }
    forall n | n in w.nodes ensures ViewLe(w, w.nodes[n], w2.nodes[n]) {
      assert ViewLe(w, w.nodes[n], w1.nodes[n]) && ViewLe(w1, w1.nodes[n], w2.nodes[n]);
    }
    forall f, t: Term | f in w.nodes && t < w.nodes[f].term ensures Ack(w2.h, f, t) == Ack(w.h, f, t) {
      assert ViewLe(w, w.nodes[f], w1.nodes[f]);
      assert Ack(w1.h, f, t) == Ack(w.h, f, t);
    }
  }

  lemma CommitsChain(w: World, w1: World, w2: World, id: NodeId)
    requires Le(w1, w2) && id in w.nodes && id in w1.nodes && id in w2.nodes
    requires Commits(w, w1, id) && Commits(w1, w2, id)
    ensures Commits(w, w2, id)
  {
    var v, v1, v2 := w.nodes[id], w1.nodes[id], w2.nodes[id];
    AgreeShorter(v2.log, v1.log, v1.commit, v.commit);
    AgreeChain(v2.log, v1.log, v.log, v.commit);
    forall t | t in w2.h.reigns ensures Witnessed(w, w2, id, t) {
      assert Witnessed(w1, w2, id, t);
      if t in w1.h.reigns && w1.h.reigns[t].committed == w2.h.reigns[t].committed {
        assert Witnessed(w, w1, id, t);
        var c := w2.h.reigns[t].committed;
        if c != 0 && !(t in w.h.reigns && w.h.reigns[t].committed == c) {
          var r1, r2 := w1.h.reigns[t].log, w2.h.reigns[t].log;
          assert ReignLe(w1.h.reigns[t], w2.h.reigns[t]);
          AgreeShorter(r1, r2, |r1|, c);
          AgreeShorter(v2.log, v1.log, v1.commit, c);
          AgreeChain(v2.log, v1.log, r1, c);
          AgreeChain(v2.log, r1, r2, c);
        }
      }
    }
  }

  lemma LeReflexive(w: World)
    ensures Le(w, w)
  {
  }

  lemma MovesChain(w: World, w1: World, w2: World, id: NodeId)
    requires Moves(w, w1, id) && Moves(w1, w2, id)
    ensures Moves(w, w2, id)
  {
    LeTransitive(w, w1, w2);
    CommitsChain(w, w1, w2, id);
    forall t | t in w.h.reigns && w.h.reigns[t].leader != id ensures t in w2.h.reigns && w2.h.reigns[t] == w.h.reigns[t] {
      assert t in w1.h.reigns;
    }
  }

  /** A node that did not act stays represented. */
  lemma RepStable(w: World, w': World, n: Node)
    requires Rep(w, n) && Le(w, w') && Inv(w') && w'.nodes[n.id] == w.nodes[n.id]
    requires n.role.Leader? ==> n.term in w'.h.reigns && w'.h.reigns[n.term].readSeq == n.role.readSeq
    ensures Rep(w', n)
  {
    hide Inv;
    if n.term in w.h.reigns { assert ReignLe(w.h.reigns[n.term], w'.h.reigns[n.term]); }
  }

  // ---------------------------------------------------------- applying

  lemma ReplayNext(log: seq<Entry>, i: nat)
    requires i < |log|
    ensures Replay(log[..i + 1]) == Apply(Replay(log[..i]), log[i]).0
  {
    assert log[..i + 1][..i] == log[..i];
  }

  /** Applying replays the log up to the commit index. */
  lemma {:induction false} MaybeApplyReplays(n: Node)
    requires Indexed(n.log) && Replayed(n) && NoChanges(n.log)
    ensures MaybeApply(n) == n.(machine := Replay(n.log[..n.commit]))
    decreases n.commit - Applied(n.machine)
  {
    var a := Applied(n.machine);
    if a < n.commit {
      ReplayNext(n.log, a);
      ApplyAdvances(n.machine, n.log[a]);
      MaybeApplyReplays(n.(machine := Apply(n.machine, n.log[a]).0));
    }
  }

  lemma ReplayedOnPrefix(log: seq<Entry>, log': seq<Entry>, a: nat, c: nat)
    requires a <= c && Agree(log', log, c)
    ensures log'[..a] == log[..a]
  {
    AgreeShorter(log', log, c, a);
  }

  // ---------------------------------------------------------- splicing

  /** Where equal terms mean equal entries, `Matching` finds no contradiction. */
  lemma {:induction false} MatchingDefined(log: seq<Entry>, off: nat, es: seq<Entry>)
    requires off <= |log|
    requires forall i :: 0 <= i < |es| && off + i < |log| && log[off + i].term == es[i].term ==> log[off + i] == es[i]
    ensures Matching(log, off, es).Some? && HoldsExactly(log, off, es, Matching(log, off, es).value)
    decreases |es|
  {
    if !(es == [] || off >= |log| || log[off].term != es[0].term) {
      forall i | 0 <= i < |es[1..]| && off + 1 + i < |log| && log[off + 1 + i].term == es[1..][i].term
        ensures log[off + 1 + i] == es[1..][i]
      {
        assert es[1..][i] == es[i + 1] && off + (i + 1) < |log|;
      }
      MatchingDefined(log, off + 1, es[1..]);
    }
    MatchingIffHolds(log, off, es, Matching(log, off, es).value);
  }

  /** A well-formed piece of a leader's log. */
  lemma PieceWellShaped(w: World, leaders: seq<Entry>, b: nat, k: nat, t: Term)
    requires Inv(w) && LogOk(w.h, leaders) && Indexed(leaders) && TermsUpTo(leaders, t)
    requires b < k <= |leaders|
    ensures WellShaped(leaders[b..k], t)
  {
    var es := leaders[b..k];
    assert EntryOk(w.h, leaders, b);
    ReignAt(w, leaders[b].term);
    assert es[0] == leaders[b] && es[|es| - 1] == leaders[k - 1];
    forall i | 0 <= i < |es| - 1 ensures es[i].term <= es[i + 1].term {
      TermsAscending(w, leaders, b + i, b + i + 1);
    }
  }

  /** Splicing a piece of the leader's log never fails an assertion, and makes the
      log agree with the leader's up to the end of the piece. */
  lemma {:induction false} SpliceFollowsLeader(w: World, log: seq<Entry>, leaders: seq<Entry>, b: nat, k: nat, c: Index, t: Term)
    requires Inv(w) && LogOk(w.h, log) && LogOk(w.h, leaders) && Indexed(log) && Indexed(leaders) && TermsUpTo(leaders, t)
    requires b <= k <= |leaders| && Agree(log, leaders, b) && Agree(log, leaders, c)
    ensures var r := Splice(log, 1, c, t, leaders[b..k]);
      r.Some? && Acceptable(log, leaders, r.value, k)
  {
    if b < k {
      PieceWellShaped(w, leaders, b, k, t);
      PieceTouches(w, log, leaders, b, k);
      SamePayload(w, log, leaders, b, k);
      SplicePiece(log, leaders, b, k, c, t);
    } else {
      assert leaders[b..k] == [];
    }
  }

  lemma SplicePiece(log: seq<Entry>, leaders: seq<Entry>, b: nat, k: nat, c: Index, t: Term)
    requires b < k <= |leaders| && Agree(log, leaders, b) && Agree(log, leaders, c) && Indexed(leaders)
    requires WellShaped(leaders[b..k], t) && Touches(log, 1, leaders[b..k])
    requires forall i :: 0 <= i < k - b && b + i < |log| && log[b + i].term == leaders[b..k][i].term ==> log[b + i] == leaders[b..k][i]
    ensures var r := Splice(log, 1, c, t, leaders[b..k]);
      r.Some? && Acceptable(log, leaders, r.value, k)
  {
    hide Splice, WellShaped, Touches, Matching;
    var es := leaders[b..k];
    assert es[0] == leaders[b];
    MatchingDefined(log, b, es);
    var j := Matching(log, b, es).value;
    SpliceValue(log, 1, c, t, es, j);
    AgreeMore(log, leaders, b, k, j);
    if j < |es| {
      assert es[j] == leaders[b + j];
      Conflict(log, leaders, b, k, c, j);
      PrefixAgrees(leaders, k);
      assert Splice(log, 1, c, t, es) == Some(leaders[..k]);
    } else {
      assert j == k - b;
    }
  }

  lemma PrefixAgrees(leaders: seq<Entry>, k: nat)
    requires k <= |leaders|
    ensures Agree(leaders[..k], leaders, k) && |leaders[..k]| == k
  {
  }

  lemma SpliceValue(log: seq<Entry>, first: Index, c: Index, t: Term, es: seq<Entry>, j: nat)
    requires es != [] && WellShaped(es, t) && Touches(log, first, es) && es[0].index >= first
    requires Matching(log, es[0].index - first, es) == Some(j)
    ensures Splice(log, first, c, t, es) ==
      if j == |es| then Some(log) else if es[j].index <= c then None
      else Some(log[..es[0].index - first + j] + es[j..])
  {
  }

  lemma SamePayload(w: World, log: seq<Entry>, leaders: seq<Entry>, b: nat, k: nat)
    requires Inv(w) && LogOk(w.h, log) && LogOk(w.h, leaders) && b <= k <= |leaders|
    ensures forall i :: 0 <= i < k - b && b + i < |log| && log[b + i].term == leaders[b..k][i].term ==> log[b + i] == leaders[b..k][i]
  {
    forall i | 0 <= i < k - b && b + i < |log| && log[b + i].term == leaders[b..k][i].term ensures log[b + i] == leaders[b..k][i] {
      LogsMatch(w, log, leaders, b + i);
      AgreeAt(log, leaders, b + i + 1, b + i);
    }
  }

  /** Logs that part at a position do not agree beyond it. */
  lemma Parted(log: seq<Entry>, leaders: seq<Entry>, i: nat, k: nat)
    requires i < |leaders| && i <= |log| && (i == |log| || log[i].term != leaders[i].term)
    ensures Agree(log, leaders, k) ==> k <= i
  {
    assert i < k <= |log| && k <= |leaders| ==> log[..k][i] == log[i] && leaders[..k][i] == leaders[i];
  }

  /** Where the logs part, nothing is committed and the rest is rewritten. */
  lemma Conflict(log: seq<Entry>, leaders: seq<Entry>, b: nat, k: nat, c: Index, j: nat)
    requires b + j < k <= |leaders| && Agree(log, leaders, b + j) && Agree(log, leaders, c)
    requires b + j == |log| || log[b + j].term != leaders[b + j].term
    ensures c <= b + j && !Agree(log, leaders, k)
    ensures log[..b + j] + leaders[b..k][j..] == leaders[..k]
  {
    Parted(log, leaders, b + j, c);
    Parted(log, leaders, b + j, k);
    assert leaders[b..k][j..] == leaders[b + j..k];
    assert leaders[..k] == leaders[..b + j] + leaders[b + j..k];
  }

  lemma PieceTouches(w: World, log: seq<Entry>, leaders: seq<Entry>, b: nat, k: nat)
    requires Inv(w) && LogOk(w.h, leaders) && Indexed(leaders) && b < k <= |leaders| && Agree(log, leaders, b)
    ensures Touches(log, 1, leaders[b..k])
  {
    assert leaders[b..k][0] == leaders[b];
    if b > 0 {
      AgreeAt(log, leaders, b, b - 1);
      TermsAscending(w, leaders, b - 1, b);
    }
  }

  lemma AgreeMore(log: seq<Entry>, leaders: seq<Entry>, b: nat, k: nat, j: nat)
    requires b <= k <= |leaders| && Agree(log, leaders, b) && j <= k - b && b + j <= |log|
    requires log[b..b + j] == leaders[b..k][..j]
    ensures Agree(log, leaders, b + j)
  {
    assert log[..b + j] == log[..b] + log[b..b + j];
    assert leaders[b..k][..j] == leaders[b..b + j];
    assert leaders[..b + j] == leaders[..b] + leaders[b..b + j];
  }

  // ---------------------------------------------------------- followers

  /** Entering a later term as a follower without a leader. */
  lemma BecomeLeaderlessRep(w: World, n: Node, t: Term, timeout: Ticks) returns (w': World)
    requires Rep(w, n) && t > n.term
    ensures var r := BecomeLeaderless(n, t, timeout);
      Rep(w', r.node) && Moves(w, w', n.id) && MsgsOk(w', r.out)
  {
    BumpKeeps(w, n.id, t);
    w' := Bump(w, n.id, t);
  }

  /** The sender of a leader's message is the leader a follower may have. */
  lemma FollowRep(w: World, n: Node, from: NodeId)
    requires Rep(w, n) && n.role.Follower? && n.term in w.h.reigns && w.h.reigns[n.term].leader == from
    requires from in w.nodes
    ensures var r := Follow(n, from);
      r.Some? && r.value.node.role.Follower? && Rep(w, r.value.node) && MsgsOk(w, r.value.out)
      && r.value.node == n.(role := r.value.node.role) && r.value.node.role.leader == Some(from)
  {
    ReignAt(w, n.term);
    hide Inv;
  }

  ghost predicate LeadersMessage(m: Message) {
    m.Heartbeat? || m.Append? || m.Read?
  }

  lemma AcceptRep(w: World, n: Node, log: seq<Entry>, k: Index) returns (w': World)
    requires Rep(w, n) && n.role.Follower? && n.term in w.h.reigns && w.h.reigns[n.term].leader != n.id
    requires Acceptable(n.log, w.h.reigns[n.term].log, log, k) && NoChanges(log) && Indexed(log)
    ensures Rep(w', n.(log := log)) && Moves(w, w', n.id)
    ensures k <= Ack(w'.h, n.id, n.term) && w'.h.reigns == w.h.reigns
    ensures ReadAck(w'.h, n.id, n.term) == ReadAck(w.h, n.id, n.term)
  {
    AcceptKeeps(w, n.id, log, k);
    w' := Accept(w, n.id, log, k);
    ReplayedOnPrefix(n.log, log, Applied(n.machine), n.commit);
  }

  lemma ConfirmRep(w: World, n: Node, q: nat) returns (w': World)
    requires Rep(w, n) && n.role.Follower? && n.term in w.h.reigns && q <= w.h.reigns[n.term].readSeq
    ensures Rep(w', n) && Moves(w, w', n.id)
    ensures q <= ReadAck(w'.h, n.id, n.term) && w'.h.reigns == w.h.reigns
    ensures Ack(w'.h, n.id, n.term) == Ack(w.h, n.id, n.term)
  {
    ConfirmKeeps(w, n.id, q);
    w' := Confirm(w, n.id, q);
    RepStable(w, w', n);
  }

  /** A stored entry of the leader's term means agreement up to there. */
  lemma HasAgrees(w: World, n: Node, i: Index)
    requires Rep(w, n) && Has(n.log, i, n.term)
    ensures n.term in w.h.reigns && Agree(n.log, w.h.reigns[n.term].log, i)
  {
    assert NodeOk(w, n.id) && EntryOk(w.h, n.log, i - 1);
  }

  lemma LearnRep(w: World, n: Node, c: Index, k: Index) returns (w': World)
    requires Rep(w, n) && n.role.Follower? && n.term in w.h.reigns && n.commit <= c <= k
    requires Agree(n.log, w.h.reigns[n.term].log, k) && Committed(w.h, w.h.reigns[n.term].log, c, n.term)
    ensures Rep(w', MaybeApply(n.(commit := c))) && Moves(w, w', n.id) && w'.h == w.h
  {
    LearnKeeps(w, n.id, c, k);
    w' := Learn(w, n.id, c);
    MaybeApplyReplays(n.(commit := c));
  }

  /** The follower holds the leader's last entry: it acknowledges its log, and may
      take over the commit index. */
  lemma HeartbeatMatches(w: World, n: Node, e: Envelope) returns (w': World)
    requires Rep(w, n) && n.role.Follower? && e.message.Heartbeat? && MsgOk(w, e) && e.term == n.term
    requires e.from != n.id && Has(n.log, e.message.lastIndex, e.term)
    ensures var c := e.message.commitIndex;
      Rep(w', if c > n.commit then MaybeApply(n.(commit := c)) else n) && Moves(w, w', n.id)
    ensures e.message.lastIndex <= Ack(w'.h, n.id, n.term) && w'.h.reigns == w.h.reigns
    ensures ReadAck(w'.h, n.id, n.term) == ReadAck(w.h, n.id, n.term)
  {
    HasAgrees(w, n, e.message.lastIndex);
    w' := AcceptRep(w, n, n.log, e.message.lastIndex);
    if e.message.commitIndex > n.commit {
      MsgStable(w, w', e);
      var w1 := w';
      w' := LearnRep(w1, n, e.message.commitIndex, e.message.lastIndex);
      MovesChain(w, w1, w', n.id);
    }
  }

  lemma HeartbeatValue(n: Node, e: Envelope, f: Outcome)
    requires n.role.Follower? && e.message.Heartbeat? && Ok(n) && e.message.commitIndex <= e.message.lastIndex
    requires Follow(n, e.from) == Some(f) && f.node.role.Follower? && f.node == n.(role := f.node.role)
    ensures var m := e.message;
      var matches := Has(n.log, m.lastIndex, e.term);
      OnHeartbeat(n, e) == Outcome(
        if matches && m.commitIndex > n.commit then MaybeApply(f.node.(commit := m.commitIndex)) else f.node,
        f.out + multiset{Send(f.node, e.from, HeartbeatResponse(if matches then m.lastIndex else 0, m.readSeq))})
  {
  }

  lemma OnHeartbeatRep(w: World, n: Node, e: Envelope) returns (w': World)
    requires Rep(w, n) && n.role.Follower? && e.message.Heartbeat? && MsgOk(w, e) && e.term == n.term && e.from != n.id
    ensures var r := OnHeartbeat(n, e);
      Rep(w', r.node) && r.node.id == n.id && Moves(w, w', n.id) && MsgsOk(w', r.out) && !r.node.role.Halted?
  {
    var m := e.message;
    FollowRep(w, n, e.from);
    var f := Follow(n, e.from).value;
    HeartbeatValue(n, e, f);
    var matches := Has(n.log, m.lastIndex, e.term);
    var reply := Send(f.node, e.from, HeartbeatResponse(if matches then m.lastIndex else 0, m.readSeq));
    var w1 := ConfirmRep(w, f.node, m.readSeq);
    if matches {
      MsgStable(w, w1, e);
      w' := HeartbeatMatches(w1, f.node, e);
      MovesChain(w, w1, w', n.id);
    } else {
      w' := w1;
    }
    MsgsStable(w, w', f.out);
    assert MsgOk(w', reply);
    MsgsPlus(w', f.out, reply);
  }

  lemma AdoptNothing(m: MembershipState, es: seq<Entry>)
    requires NoChanges(es)
    ensures AdoptMembership(m, es) == m
    decreases |es|
  {
    if es != [] { AdoptNothing(m, es[1..]); }
  }

  /** What a splice stores is numbered and carries no configuration. */
  lemma SplicedShape(log: seq<Entry>, leaders: seq<Entry>, b: nat, es: seq<Entry>, log': seq<Entry>)
    requires NoChanges(log) && Indexed(log) && Indexed(leaders) && b + |es| <= |leaders| && es == leaders[b..b + |es|] && NoChanges(es)
    requires Acceptable(log, leaders, log', b + |es|) && b <= |log| && Agree(log, leaders, b)
    ensures NoChanges(log') && Indexed(log')
  {
    if log' != log {
      forall i | 0 <= i < |log'| ensures log'[i].membership.None? && log'[i].index == i + 1 {
        AgreeAt(log', leaders, b + |es|, i);
        if i < b { AgreeAt(log, leaders, b, i); } else { assert es[i - b] == leaders[i]; }
      }
    }
  }

  lemma BaseAgrees(w: World, n: Node, base: Index, baseTerm: Term)
    requires Rep(w, n) && n.term in w.h.reigns && base <= |w.h.reigns[n.term].log|
    requires baseTerm == TermAt(w.h.reigns[n.term].log, base)
    requires base == 0 || Has(n.log, base, baseTerm)
    ensures Agree(n.log, w.h.reigns[n.term].log, base)
  {
    if base > 0 {
      assert NodeOk(w, n.id) && ReignOk(w, n.term);
      LogsMatch(w, n.log, w.h.reigns[n.term].log, base - 1);
    }
  }

  lemma SpliceRep(w: World, n: Node, e: Envelope) returns (w': World)
    requires Rep(w, n) && n.role.Follower? && e.message.Append? && MsgOk(w, e) && e.term == n.term && e.from != n.id
    requires var m := e.message; m.baseIndex == 0 || Has(n.log, m.baseIndex, m.baseTerm)
    ensures var m, r := e.message, Splice(n.log, 1, n.commit, n.term, e.message.entries);
      r.Some? && Rep(w', n.(log := r.value)) && Moves(w, w', n.id)
      && m.baseIndex + |m.entries| <= Ack(w'.h, n.id, n.term) && w'.h.reigns == w.h.reigns
  {
    hide Splice, Linked, Replayed, Moves;
    var m := e.message;
    var leaders := w.h.reigns[n.term].log;
    var k := m.baseIndex + |m.entries|;
    assert Indexed(leaders) && LogOk(w.h, leaders) && TermsUpTo(leaders, n.term) by { ReignAt(w, n.term); }
    assert LogOk(w.h, n.log) by { assert NodeOk(w, n.id); }
    BaseAgrees(w, n, m.baseIndex, m.baseTerm);
    CommitAgrees(w, n.id, n.term);
    SpliceFollowsLeader(w, n.log, leaders, m.baseIndex, k, n.commit, n.term);
    var log := Splice(n.log, 1, n.commit, n.term, m.entries).value;
    SplicedShape(n.log, leaders, m.baseIndex, m.entries, log);
    w' := AcceptRep(w, n, log, k);
  }

  lemma AppendValue(n: Node, e: Envelope, f: Outcome)
    requires n.role.Follower? && e.message.Append? && Ok(n)
    requires e.message.entries != [] ==> e.message.baseIndex == e.message.entries[0].index - 1
    requires Follow(n, e.from) == Some(f) && f.node.role.Follower? && f.node == n.(role := f.node.role)
    ensures var m := e.message;
      OnAppend(n, e) ==
        if m.baseIndex == 0 || Has(n.log, m.baseIndex, m.baseTerm) then
          var log := Splice(n.log, 1, n.commit, n.term, m.entries);
          if log.None? then Outcome(Halt(f.node), f.out)
          else
            var n2 := f.node.(log := log.value, membership := AdoptMembership(n.membership, m.entries));
            Outcome(n2, f.out + multiset{Send(n2, e.from, AppendResponse(m.baseIndex + |m.entries|, 0))})
        else Outcome(f.node, f.out + multiset{Send(f.node, e.from, AppendResponse(0, Min(m.baseIndex, |n.log| + 1)))})
  {
    hide Splice, AdoptMembership;
  }

  lemma AppendShape(w: World, e: Envelope)
    requires Inv(w) && MsgOk(w, e) && e.message.Append?
    ensures e.message.entries != [] ==> e.message.baseIndex == e.message.entries[0].index - 1
  {
    if e.message.entries != [] {
      assert e.message.entries[0] == w.h.reigns[e.term].log[e.message.baseIndex];
      ReignAt(w, e.term);
    }
  }

  /** A follower that learned who leads its term stands for the same view. */
  lemma LedRep(w: World, n: Node, f: Node)
    requires Rep(w, n) && n.role.Follower? && f.role.Follower? && f == n.(role := f.role)
    requires n.term in w.h.reigns && f.role.leader == Some(w.h.reigns[n.term].leader)
    ensures Rep(w, f)
  {
    hide Inv;
  }

  lemma AdoptedRep(w: World, n: Node, f: Outcome, e: Envelope) returns (w': World)
    requires Rep(w, n) && n.role.Follower? && e.message.Append? && MsgOk(w, e) && e.term == n.term && e.from != n.id
    requires var m := e.message; m.baseIndex == 0 || Has(n.log, m.baseIndex, m.baseTerm)
    requires f.node.role.Follower? && f.node == n.(role := f.node.role) && f.node.role.leader == Some(e.from) && MsgsOk(w, f.out)
    ensures var m, r := e.message, Splice(n.log, 1, n.commit, n.term, e.message.entries);
      r.Some? && AdoptMembership(n.membership, m.entries) == n.membership
      && Rep(w', f.node.(log := r.value)) && Moves(w, w', n.id)
      && MsgsOk(w', f.out + multiset{Send(f.node, e.from, AppendResponse(m.baseIndex + |m.entries|, 0))})
  {
    hide Inv, Splice, Replayed, Ok, Fixed;
    var m := e.message;
    AdoptNothing(n.membership, m.entries);
    w' := SpliceRep(w, n, e);
    var log := Splice(n.log, 1, n.commit, n.term, m.entries).value;
    LedRep(w', n.(log := log), f.node.(log := log));
    hide Linked;
    MsgsStable(w, w', f.out);
    hide Le;
    MsgsPlus(w', f.out, Send(f.node, e.from, AppendResponse(m.baseIndex + |m.entries|, 0)));
  }

  lemma OnAppendRep(w: World, n: Node, e: Envelope) returns (w': World)
    requires Rep(w, n) && n.role.Follower? && e.message.Append? && MsgOk(w, e) && e.term == n.term && e.from != n.id
    ensures var r := OnAppend(n, e);
      Rep(w', r.node) && r.node.id == n.id && Moves(w, w', n.id) && MsgsOk(w', r.out) && !r.node.role.Halted?
  {
    hide Inv, Le, Linked, Splice, Fixed, Replayed;
    var m := e.message;
    FollowRep(w, n, e.from);
    var f := Follow(n, e.from).value;
    AppendShape(w, e);
    AppendValue(n, e, f);
    hide OnAppend, Follow;
    if m.baseIndex == 0 || Has(n.log, m.baseIndex, m.baseTerm) {
      w' := AdoptedRep(w, n, f, e);
    } else {
      w' := w;
      LeReflexive(w);
      MsgsPlus(w', f.out, Send(f.node, e.from, AppendResponse(0, Min(m.baseIndex, |n.log| + 1))));
    }
  }

  lemma OnReadRep(w: World, n: Node, e: Envelope) returns (w': World)
    requires Rep(w, n) && n.role.Follower? && e.message.Read? && MsgOk(w, e) && e.term == n.term && e.from != n.id
    ensures var r := OnRead(n, e);
      Rep(w', r.node) && r.node.id == n.id && Moves(w, w', n.id) && MsgsOk(w', r.out) && !r.node.role.Halted?
  {
    hide Inv, Le, Linked;
    FollowRep(w, n, e.from);
    w' := ConfirmRep(w, Follow(n, e.from).value.node, e.message.readSeq);
    MsgsStable(w, w', Follow(n, e.from).value.out);
  }

  lemma OnCampaignRep(w: World, n: Node, e: Envelope) returns (w': World)
    requires Rep(w, n) && n.role.Follower? && e.message.Campaign? && MsgOk(w, e) && e.term == n.term
    ensures var r := OnCampaign(n, e);
      Rep(w', r.node) && r.node.id == n.id && Moves(w, w', n.id) && MsgsOk(w', r.out) && !r.node.role.Halted?
  {
    CampaignAt(w, At(e.from, e.term));
    hide Inv, Le, Linked, Replayed, Fixed, Ok;
    if (n.vote.Some? && n.vote.value != e.from) || !UpToDate(n, e.message.lastIndex, e.message.lastTerm) {
      w' := w;
      LeReflexive(w);
    } else {
      w' := GrantRep(w, n, e);
    }
  }

  lemma GrantRep(w: World, n: Node, e: Envelope) returns (w': World)
    requires Rep(w, n) && n.role.Follower? && e.message.Campaign? && MsgOk(w, e) && e.term == n.term
    requires !(n.vote.Some? && n.vote.value != e.from) && UpToDate(n, e.message.lastIndex, e.message.lastTerm)
    ensures Rep(w', n.(vote := Some(e.from))) && Moves(w, w', n.id)
    ensures MsgOk(w', Send(n, e.from, CampaignResponse(true)))
  {
    hide Inv, Le;
    GrantKeeps(w, n.id, e.from);
    w' := Grant(w, n.id, e.from);
  }

  function Heard(n: Node, from: NodeId): Node
    requires n.role.Follower?
  {
    if n.role.leader == Some(from) then n.(role := n.role.(leaderSeen := 0)) else n
  }

  lemma FollowerAtTermValue(n: Node, e: Envelope)
    requires n.role.Follower? && Ok(n)
    ensures var r, n1, m := FollowerAtTerm(n, e), Heard(n, e.from), e.message;
      && n1.role.Follower? && Ok(n1)
      && (m.Heartbeat? ==> r == OnHeartbeat(n1, e)) && (m.Append? ==> r == OnAppend(n1, e))
      && (m.Read? ==> r == OnRead(n1, e)) && (m.Campaign? ==> r == OnCampaign(n1, e))
  {
    hide OnHeartbeat, OnAppend, OnRead, OnCampaign, OnForward;
  }

  /** The messages a follower handles without any evidence. */
  lemma OnForwardRep(w: World, n: Node, e: Envelope)
    requires Rep(w, n) && n.role.Follower? && MsgOk(w, e) && (e.message.ClientRequest? || e.message.ClientResponse?)
    ensures var r := OnForward(n, e); Rep(w, r.node) && r.node.id == n.id && MsgsOk(w, r.out)
  {
    hide Inv, Le;
  }

  lemma OtherMessagesRep(w: World, n: Node, e: Envelope)
    requires Rep(w, n) && n.role.Follower? && MsgOk(w, e)
    requires !LeadersMessage(e.message) && !e.message.Campaign?
    ensures var r := FollowerAtTerm(n, e); Rep(w, r.node) && r.node.id == n.id && MsgsOk(w, r.out)
  {
    HeardRep(w, n, e.from);
    if e.message.ClientRequest? || e.message.ClientResponse? {
      OnForwardRep(w, Heard(n, e.from), e);
      ForwardValue(n, e);
    } else {
      hide Inv, Le;
      assert Rep(w, Halt(Heard(n, e.from)));
    }
  }

  lemma ForwardValue(n: Node, e: Envelope)
    requires n.role.Follower? && Ok(n) && (e.message.ClientRequest? || e.message.ClientResponse?)
    ensures Heard(n, e.from).role.Follower? && FollowerAtTerm(n, e) == OnForward(Heard(n, e.from), e)
  {
  }

  lemma FollowerAtTermRep(w: World, n: Node, e: Envelope) returns (w': World)
    requires Rep(w, n) && n.role.Follower? && MsgOk(w, e) && e.term == n.term && (e.from == n.id ==> e.message.ClientRequest?)
    ensures var r := FollowerAtTerm(n, e);
      Rep(w', r.node) && r.node.id == n.id && Moves(w, w', n.id) && MsgsOk(w', r.out)
  {
    var n1 := Heard(n, e.from);
    HeardRep(w, n, e.from);
    FollowerAtTermValue(n, e);
    if LeadersMessage(e.message) || e.message.Campaign? {
      hide FollowerAtTerm, OnHeartbeat, OnAppend, OnRead, OnCampaign, Inv, Linked;
      if e.message.Heartbeat? { w' := OnHeartbeatRep(w, n1, e); }
      else if e.message.Append? { w' := OnAppendRep(w, n1, e); }
      else if e.message.Read? { w' := OnReadRep(w, n1, e); }
      else { w' := OnCampaignRep(w, n1, e); }
    } else {
      OtherMessagesRep(w, n, e);
      w' := w;
      LeReflexive(w);
    }
  }

  lemma HeardRep(w: World, n: Node, from: NodeId)
    requires Rep(w, n) && n.role.Follower?
    ensures Rep(w, Heard(n, from)) && Heard(n, from).id == n.id && Heard(n, from).term == n.term
  {
    hide Inv, Le;
  }

  lemma FollowerStepRep(w: World, n: Node, e: Envelope, timeout: Ticks) returns (w': World)
    requires Rep(w, n) && n.role.Follower? && MsgOk(w, e) && (e.from == n.id ==> e.message.ClientRequest?)
    ensures var r := FollowerStep(n, e, timeout);
      Rep(w', r.node) && r.node.id == n.id && Moves(w, w', n.id) && MsgsOk(w', r.out)
  {
    hide Inv, Le, Linked;
    LeReflexive(w);
    if IsPreVote(e.message) || e.term < n.term { w' := w; }
    else if e.term > n.term { w' := LaterTermRep(w, n, e, timeout, BecomeLeaderless(n, e.term, timeout)); }
    else { w' := FollowerAtTermRep(w, n, e); }
  }

  /** Any node that hears of a later term becomes its follower and handles the message. */
  lemma LaterTermRep(w: World, n: Node, e: Envelope, timeout: Ticks, r: Outcome) returns (w': World)
    requires Rep(w, n) && MsgOk(w, e) && e.term > n.term && (e.from == n.id ==> e.message.ClientRequest?)
    requires r.node == BecomeLeaderless(n, e.term, timeout).node && MsgsOk(w, r.out)
    ensures Ok(r.node)
    ensures var f := FollowerAtTerm(r.node, e);
      Rep(w', f.node) && f.node.id == n.id && Moves(w, w', n.id) && MsgsOk(w', f.Also(r.out).out)
  {
    var w1 := BecomeLeaderlessRep(w, n, e.term, timeout);
    MsgStable(w, w1, e);
    w' := FollowerAtTermRep(w1, r.node, e);
    MovesChain(w, w1, w', n.id);
    MsgsStable(w, w', r.out);
  }
}
