/** The elementary moves of the protocol, each with the proof that it keeps the
    invariant of Protocol.dfy. Every branch of the node's code is a composition of
    these moves. */
module ProtocolSteps {
  import opened Basics
  import opened Configuration
  import opened Machine
  import opened LogSpec
  import opened Protocol

  ghost function SetNode(w: World, n: NodeId, v: View): World {
    w.(nodes := w.nodes[n := v])
  }

  /** The parts that every move keeps for what was there before. */
  lemma Rest(w: World, w': World)
    requires Inv(w) && Le(w, w')
    ensures forall k :: k in w.h.votes ==> VoteOk(w', k)
    ensures forall k :: k in w.h.campaigns ==> CampaignOk(w', k)
    ensures forall s, t :: s in w'.h.reigns && t in w.h.reigns && s < t ==> Succession(w', s, t)
    ensures forall k :: k in w.h.asked ==> ReadOk(w', k)
    ensures forall k :: k in w.h.wrote ==> WroteOk(w', k)
  {
    forall k | k in w.h.wrote ensures WroteOk(w', k) { assert WroteOk(w, k); WroteStable(w, w', k); }
    forall k | k in w.h.votes ensures VoteOk(w', k) { VoteStable(w, w', k); }
    forall k | k in w.h.campaigns ensures CampaignOk(w', k) { assert CampaignOk(w, k); CampaignStable(w, w', k); }
    forall s, t | s in w'.h.reigns && t in w.h.reigns && s < t ensures Succession(w', s, t) { SuccessionStable(w, w', s, t); }
    forall k | k in w.h.asked ensures ReadOk(w', k) { ReadStable(w, w', k); }
  }

  /** What a move of node n in term t may change. */
  ghost predicate Local(w: World, w': World, n: NodeId, t: Term) {
    && n in w.nodes
    && (forall m {:trigger w'.nodes[m]} :: m in w.nodes && m != n ==> m in w'.nodes && w'.nodes[m] == w.nodes[m])
    && (forall r {:trigger r in w'.h.reigns} :: r in w'.h.reigns && r != t ==> r in w.h.reigns && w'.h.reigns[r] == w.h.reigns[r])
    && (t in w'.h.reigns && t !in w.h.reigns ==> w'.h.reigns[t].leader == n)
    && (t in w.h.reigns && w.h.reigns[t].leader != n ==> t in w'.h.reigns && w'.h.reigns[t] == w.h.reigns[t])
    && (forall k {:trigger k in w'.h.acks} :: k in w'.h.acks && k != At(n, t) ==> k in w.h.acks && w'.h.acks[k] == w.h.acks[k])
    && (forall k {:trigger k in w'.h.readAcks} :: k in w'.h.readAcks && k != At(n, t) ==> k in w.h.readAcks && w'.h.readAcks[k] == w.h.readAcks[k])
    && (forall k {:trigger k in w'.h.asked} :: k in w'.h.asked && k !in w.h.asked ==>
          k.term == t && t in w.h.reigns && k.serial > w.h.reigns[t].readSeq)
  }

  /** The parts of the invariant that such a move has to establish itself. */
  ghost predicate Renewed(w: World, w': World, n: NodeId, t: Term) {
    && n in w'.nodes && NodeOk(w', n)
    && (t in w'.h.reigns ==> ReignOk(w', t))
    && (forall k {:trigger VoteOk(w', k)} :: k in w'.h.votes && k !in w.h.votes ==> VoteOk(w', k))
    && (forall k {:trigger CampaignOk(w', k)} :: k in w'.h.campaigns && k !in w.h.campaigns ==> CampaignOk(w', k))
    && (forall k {:trigger AckOk(w', k)} :: k in w'.h.acks && k.node == n ==> AckOk(w', k))
    && (t in w'.h.reigns && t !in w.h.reigns ==>
          forall s {:trigger Succession(w', s, t)} :: s in w'.h.reigns && s < t ==> Succession(w', s, t))
    && (forall k {:trigger ReadOk(w', k)} :: k in w'.h.asked && k !in w.h.asked ==> ReadOk(w', k))
    && (At(n, t) in w'.h.readAcks ==> ReadAckOk(w', At(n, t)))
    && (forall k {:trigger WroteOk(w', k)} :: k in w'.h.wrote && k !in w.h.wrote ==> WroteOk(w', k))
  }

  lemma Assemble(w: World, w': World, n: NodeId, t: Term)
    requires Inv(w) && Le(w, w') && Local(w, w', n, t) && Renewed(w, w', n, t)
    ensures Inv(w')
  {
    Rest(w, w');
    forall r | r in w'.h.reigns ensures ReignOk(w', r) {
      if r != t { assert ReignOk(w, r); ReignStable(w, w', r); }
    }
    AssembleNodes(w, w', n, t);
    AssembleAcks(w, w', n, t);
    forall s, r | s in w'.h.reigns && r in w'.h.reigns && s < r ensures Succession(w', s, r) {}
    forall k | k in w'.h.readAcks ensures ReadAckOk(w', k) {
      if k != At(n, t) {
        assert ReadAckOk(w, k);
        ReadAckStable(w, w', k);
      }
    }
  }

  lemma AssembleNodes(w: World, w': World, n: NodeId, t: Term)
    requires Inv(w) && Le(w, w') && Local(w, w', n, t) && NodeOk(w', n)
    ensures forall m {:trigger NodeOk(w', m)} :: m in w'.nodes ==> NodeOk(w', m)
  {
    forall m | m in w'.nodes ensures NodeOk(w', m) {
      if m != n { assert NodeOk(w, m); NodeStable(w, w', m); }
    }
  }

  lemma AssembleAcks(w: World, w': World, n: NodeId, t: Term)
    requires Inv(w) && Le(w, w') && Local(w, w', n, t)
    requires forall k {:trigger AckOk(w', k)} :: k in w'.h.acks && k.node == n ==> AckOk(w', k)
    ensures forall k {:trigger AckOk(w', k)} :: k in w'.h.acks ==> AckOk(w', k)
  {
    forall k | k in w'.h.acks ensures AckOk(w', k) {
      if k.node != n { assert AckOk(w, k); AckStable(w, w', k); }
    }
  }

  /** A move that changes nothing but one node, and not its log. */
  lemma OnlyNode(w: World, w': World, n: NodeId)
    requires Inv(w) && n in w.nodes && Le(w, w')
    requires w' == SetNode(w, n, w'.nodes[n])
    requires NodeOk(w', n)
    requires w'.nodes[n].log == w.nodes[n].log
    ensures Inv(w')
  {
    var t := w.nodes[n].term;
    AcksKept(w, w', n);
    if t in w.h.reigns { assert ReignOk(w, t); ReignStable(w, w', t); }
    if At(n, t) in w.h.readAcks { assert ReadAckOk(w, At(n, t)); ReadAckStable(w, w', At(n, t)); }
    Assemble(w, w', n, t);
  }

  /** A node whose log stays keeps its acknowledgements. */
  lemma AcksKept(w: World, w': World, n: NodeId)
    requires Inv(w) && n in w.nodes && Le(w, w')
    requires w'.nodes[n].log == w.nodes[n].log
    ensures forall k {:trigger AckOk(w', k)} :: k in w.h.acks && k.node == n && k in w'.h.acks && w'.h.acks[k] == w.h.acks[k] ==> AckOk(w', k)
  {
    forall k | k in w.h.acks && k.node == n && k in w'.h.acks && w'.h.acks[k] == w.h.acks[k] ensures AckOk(w', k) {
      assert AckOk(w, k);
      AckStable(w, w', k);
    }
  }

  // Facts of the invariant about one element.

  lemma VoteAt(w: World, k: At)
    requires Inv(w) && k in w.h.votes
    ensures VoteOk(w, k)
  {
    assert VoteOk(w, k);
  }

  lemma CampaignAt(w: World, k: At)
    requires Inv(w) && k in w.h.campaigns
    ensures CampaignOk(w, k)
  {
    assert CampaignOk(w, k);
  }

  lemma AckAt(w: World, k: At)
    requires Inv(w) && k in w.h.acks
    ensures AckOk(w, k)
  {
    assert AckOk(w, k);
  }

  lemma ReignAt(w: World, t: Term)
    requires Inv(w) && t in w.h.reigns
    ensures ReignOk(w, t)
  {
    assert ReignOk(w, t);
  }

  lemma ReadAckAt(w: World, k: At)
    requires Inv(w) && k in w.h.readAcks
    ensures ReadAckOk(w, k)
  {
    assert ReadAckOk(w, k);
  }

  lemma WroteAt(w: World, k: Slot)
    requires Inv(w) && k in w.h.wrote
    ensures WroteOk(w, k)
  {
    assert WroteOk(w, k);
  }

  lemma ReadAt(w: World, k: ReadId)
    requires Inv(w) && k in w.h.asked
    ensures ReadOk(w, k)
  {
    assert ReadOk(w, k);
  }

  // ------------------------------------------------------------ node moves

  /** Enter a later term without a vote. */
  ghost function Bump(w: World, n: NodeId, t: Term): World
    requires n in w.nodes
  {
    SetNode(w, n, w.nodes[n].(term := t, vote := None, duty := Idle))
  }

  lemma BumpKeeps(w: World, n: NodeId, t: Term)
    requires Inv(w) && n in w.nodes && t > w.nodes[n].term
    ensures Inv(Bump(w, n, t)) && Le(w, Bump(w, n, t))
  {
    var w' := Bump(w, n, t);
    assert NodeOk(w, n);
    CommittedStable(w.h, w'.h, w.nodes[n].log, w.nodes[n].commit, w.nodes[n].term, t);
    OnlyNode(w, w', n);
  }

  /** Give up candidacy or leadership within the term. */
  ghost function Retire(w: World, n: NodeId): World
    requires n in w.nodes
  {
    SetNode(w, n, w.nodes[n].(duty := Idle))
  }

  lemma RetireKeeps(w: World, n: NodeId)
    requires Inv(w) && n in w.nodes
    ensures Inv(Retire(w, n)) && Le(w, Retire(w, n))
  {
    assert NodeOk(w, n);
    OnlyNode(w, Retire(w, n), n);
  }

  /** Restart: all volatile state and possibly some commit progress is lost. */
  ghost function Forget(w: World, n: NodeId, c: Index): World
    requires n in w.nodes
  {
    SetNode(w, n, w.nodes[n].(duty := Idle, commit := c))
  }

  lemma ForgetKeeps(w: World, n: NodeId, c: Index)
    requires Inv(w) && n in w.nodes && c <= w.nodes[n].commit
    ensures Inv(Forget(w, n, c)) && Le(w, Forget(w, n, c))
  {
    assert NodeOk(w, n);
    var v := w.nodes[n];
    if c != 0 {
      var s: Term :| s <= v.term && CommittedBy(w.h, v.log, v.commit, s);
      AgreeShorter(v.log, w.h.reigns[s].log, v.commit, c);
      assert CommittedBy(w.h, v.log, c, s);
    }
    OnlyNode(w, Forget(w, n, c), n);
  }

  /** A follower learns a commit index that lies in the part it shares with its leader. */
  ghost function Learn(w: World, n: NodeId, c: Index): World
    requires n in w.nodes
  {
    SetNode(w, n, w.nodes[n].(commit := c))
  }

  lemma LearnKeeps(w: World, n: NodeId, c: Index, k: Index)
    requires Inv(w) && n in w.nodes && w.nodes[n].duty == Idle
    requires w.nodes[n].term in w.h.reigns && c <= k && Agree(w.nodes[n].log, w.h.reigns[w.nodes[n].term].log, k)
    requires Committed(w.h, w.h.reigns[w.nodes[n].term].log, c, w.nodes[n].term)
    ensures Inv(Learn(w, n, c)) && Le(w, Learn(w, n, c))
  {
    assert NodeOk(w, n);
    var v := w.nodes[n];
    var leading := w.h.reigns[v.term].log;
    AgreeShorter(v.log, leading, k, c);
    if c != 0 {
      var s: Term :| s <= v.term && CommittedBy(w.h, leading, c, s);
      AgreeChain(v.log, leading, w.h.reigns[s].log, c);
      assert CommittedBy(w.h, v.log, c, s);
    }
    OnlyNode(w, Learn(w, n, c), n);
  }

  // ------------------------------------------------------------- elections

  /** Start an election: next term, vote for oneself. */
  ghost function Stand(w: World, n: NodeId): World
    requires n in w.nodes
  {
    var v := w.nodes[n];
    var k := At(n, v.term + 1);
    World(w.config,
          w.nodes[n := v.(term := v.term + 1, vote := Some(n), duty := Standing)],
          w.h.(votes := w.h.votes[k := n], campaigns := w.h.campaigns[k := v.log]))
  }

  lemma NotThereYet(w: World, n: NodeId, t: Term)
    requires Inv(w) && n in w.nodes && t > w.nodes[n].term
    ensures At(n, t) !in w.h.votes && At(n, t) !in w.h.campaigns
    ensures At(n, t) !in w.h.acks && At(n, t) !in w.h.readAcks
    ensures t in w.h.reigns ==> w.h.reigns[t].leader != n
  {
    if At(n, t) in w.h.votes { VoteAt(w, At(n, t)); }
    if At(n, t) in w.h.campaigns { CampaignAt(w, At(n, t)); }
    if At(n, t) in w.h.acks { AckAt(w, At(n, t)); }
    if At(n, t) in w.h.readAcks { ReadAckAt(w, At(n, t)); }
    if t in w.h.reigns { ReignAt(w, t); }
  }

  lemma StandLe(w: World, n: NodeId)
    requires Inv(w) && n in w.nodes
    ensures Le(w, Stand(w, n))
  {
    NotThereYet(w, n, w.nodes[n].term + 1);
  }

  lemma StandNode(w: World, n: NodeId)
    requires Inv(w) && n in w.nodes && Le(w, Stand(w, n))
    ensures NodeOk(Stand(w, n), n) && CampaignOk(Stand(w, n), At(n, w.nodes[n].term + 1))
  {
    var w', v := Stand(w, n), w.nodes[n];
    NotThereYet(w, n, v.term + 1);
    assert NodeOk(w, n);
    LogStable(w.h, w'.h, v.log);
    CommittedStable(w.h, w'.h, v.log, v.commit, v.term, v.term + 1);
  }

  lemma StandVote(w: World, n: NodeId)
    requires Inv(w) && n in w.nodes && Le(w, Stand(w, n))
    ensures VoteOk(Stand(w, n), At(n, w.nodes[n].term + 1))
  {
    var w', v := Stand(w, n), w.nodes[n];
    forall s: Term, i: Index | s < v.term + 1 && s in w'.h.reigns && w'.h.reigns[s].inherited < i <= Ack(w'.h, n, s)
      ensures AckSafe(w', v.log, s, i)
    {
      assert AckOk(w, At(n, s));
      AckSafeStable(w, w', v.log, s, i);
    }
  }

  lemma {:induction false} StandKeeps(w: World, n: NodeId)
    requires Inv(w) && n in w.nodes
    ensures Inv(Stand(w, n)) && Le(w, Stand(w, n))
  {
    var w', t := Stand(w, n), w.nodes[n].term + 1;
    NotThereYet(w, n, t);
    StandLe(w, n);
    StandNode(w, n);
    StandVote(w, n);
    AcksKept(w, w', n);
    if t in w.h.reigns { assert ReignOk(w, t); ReignStable(w, w', t); }
    Assemble(w, w', n, t);
  }

  /** The candidate's log is at least as up to date as the voter's. */
  ghost predicate Behind(log: seq<Entry>, candidate: seq<Entry>) {
    !(LastTerm(log) > LastTerm(candidate) || (LastTerm(log) == LastTerm(candidate) && |log| > |candidate|))
  }

  /** What a less up-to-date voter acknowledged is safe with the candidate. */
  lemma UpToDateIsSafe(w: World, v: NodeId, t: Term, log: seq<Entry>, s: Term, i: Index)
    requires Inv(w) && v in w.nodes && LogOk(w.h, log) && t >= 1 && TermsUpTo(log, t - 1)
    requires Behind(w.nodes[v].log, log)
    requires s in w.h.reigns && s < t && w.h.reigns[s].inherited < i <= Ack(w.h, v, s)
    ensures AckSafe(w, log, s, i)
  {
    var mine, theirs := w.nodes[v].log, w.h.reigns[s].log;
    assert AckOk(w, At(v, s)) && NodeOk(w, v) && ReignOk(w, s);
    assert AckSafe(w, mine, s, i);
    if !Blocked(w, s, i) {
      AgreeAt(mine, theirs, i, i - 1);
      TermsAscending(w, mine, i - 1, |mine| - 1);
      var last := |log| - 1;
      var x := log[last].term;
      assert EntryOk(w.h, log, last);
      if x == s {
        AgreeShorter(log, theirs, last + 1, i);
      } else {
        SuccessionHolds(w, s, x, i);
        AgreeShorter(log, w.h.reigns[x].log, last + 1, i);
        AgreeChain(log, w.h.reigns[x].log, theirs, i);
      }
    }
  }

  /** Grant a vote to a candidate of the voter's term. */
  ghost function Grant(w: World, v: NodeId, c: NodeId): World
    requires v in w.nodes
  {
    World(w.config,
          w.nodes[v := w.nodes[v].(vote := Some(c))],
          w.h.(votes := w.h.votes[At(v, w.nodes[v].term) := c]))
  }

  ghost predicate CanGrant(w: World, v: NodeId, c: NodeId) {
    && v in w.nodes && c in w.nodes && w.nodes[v].duty == Idle
    && (w.nodes[v].vote == None || w.nodes[v].vote == Some(c))
    && At(c, w.nodes[v].term) in w.h.campaigns && Behind(w.nodes[v].log, w.h.campaigns[At(c, w.nodes[v].term)])
  }

  lemma GrantLe(w: World, v: NodeId, c: NodeId)
    requires Inv(w) && CanGrant(w, v, c)
    ensures Le(w, Grant(w, v, c))
  {
    if At(v, w.nodes[v].term) in w.h.votes { VoteAt(w, At(v, w.nodes[v].term)); }
  }

  lemma GrantVote(w: World, v: NodeId, c: NodeId)
    requires Inv(w) && CanGrant(w, v, c) && Le(w, Grant(w, v, c))
    ensures VoteOk(Grant(w, v, c), At(v, w.nodes[v].term))
  {
    var w', t := Grant(w, v, c), w.nodes[v].term;
    var log := w.h.campaigns[At(c, t)];
    assert CampaignOk(w, At(c, t));
    forall s: Term, i: Index | s < t && s in w'.h.reigns && w'.h.reigns[s].inherited < i <= Ack(w'.h, v, s)
      ensures AckSafe(w', log, s, i)
    {
      UpToDateIsSafe(w, v, t, log, s, i);
      AckSafeStable(w, w', log, s, i);
    }
  }

  lemma GrantNode(w: World, v: NodeId, c: NodeId)
    requires Inv(w) && CanGrant(w, v, c) && Le(w, Grant(w, v, c))
    ensures NodeOk(Grant(w, v, c), v)
  {
    var w', t := Grant(w, v, c), w.nodes[v].term;
    assert NodeOk(w, v);
    LogStable(w.h, w'.h, w.nodes[v].log);
    CommittedStable(w.h, w'.h, w.nodes[v].log, w.nodes[v].commit, t, t);
  }

  lemma {:induction false} GrantKeeps(w: World, v: NodeId, c: NodeId)
    requires Inv(w) && CanGrant(w, v, c)
    ensures Inv(Grant(w, v, c)) && Le(w, Grant(w, v, c))
  {
    var w', t := Grant(w, v, c), w.nodes[v].term;
    GrantLe(w, v, c);
    GrantVote(w, v, c);
    GrantNode(w, v, c);
    AcksKept(w, w', v);
    if t in w.h.reigns { assert ReignOk(w, t); ReignStable(w, w', t); }
    if At(v, t) in w.h.readAcks { assert ReadAckOk(w, At(v, t)); ReadAckStable(w, w', At(v, t)); }
    Assemble(w, w', v, t);
  }

  /** A candidate with a quorum of votes leads, and writes its no-op. */
  ghost function Crown(w: World, n: NodeId, noop: Entry): World
    requires n in w.nodes
  {
    var v := w.nodes[n];
    var log := v.log + [noop];
    World(w.config,
          w.nodes[n := v.(log := log, duty := Leading)],
          w.h.(reigns := w.h.reigns[v.term := Reign(n, |v.log|, log, 0, 0)],
               acks := w.h.acks[At(n, v.term) := |log|]))
  }

  /** Election safety: no one else can have won the term. */
  lemma NoOtherWinner(w: World, n: NodeId, q: set<NodeId>)
    requires Inv(w) && n in w.nodes && w.nodes[n].duty == Standing
    requires Quorum(w.config, q) && AllVoted(w.h, q, w.nodes[n].term, n)
    ensures w.nodes[n].term !in w.h.reigns
  {
    var t := w.nodes[n].term;
    if t in w.h.reigns {
      assert ReignOk(w, t) && NodeOk(w, n);
      var q' :| Quorum(w.config, q') && AllVoted(w.h, q', t, w.h.reigns[t].leader);
      var x := QuorumsMeet(w.config, q, q');
    }
  }

  lemma NoReignNoAcks(w: World, f: NodeId, t: Term)
    requires Inv(w) && t !in w.h.reigns
    ensures At(f, t) !in w.h.acks && At(f, t) !in w.h.readAcks
    ensures forall q :: ReadId(t, q) !in w.h.asked
  {
    if At(f, t) in w.h.acks { AckAt(w, At(f, t)); }
    if At(f, t) in w.h.readAcks { ReadAckAt(w, At(f, t)); }
    forall q ensures ReadId(t, q) !in w.h.asked {
      if ReadId(t, q) in w.h.asked { ReadAt(w, ReadId(t, q)); }
    }
  }

  lemma CrownLe(w: World, n: NodeId, q: set<NodeId>, noop: Entry)
    requires Inv(w) && n in w.nodes && w.nodes[n].duty == Standing
    requires Quorum(w.config, q) && AllVoted(w.h, q, w.nodes[n].term, n)
    ensures Le(w, Crown(w, n, noop))
  {
    NoOtherWinner(w, n, q);
    forall f { NoReignNoAcks(w, f, w.nodes[n].term); }
    hide Inv, AllVoted, Quorum;
  }

  lemma CrownReign(w: World, n: NodeId, q: set<NodeId>, noop: Entry)
    requires Inv(w) && n in w.nodes && w.nodes[n].duty == Standing && Indexed(w.nodes[n].log)
    requires Quorum(w.config, q) && AllVoted(w.h, q, w.nodes[n].term, n)
    requires noop.index == |w.nodes[n].log| + 1 && noop.term == w.nodes[n].term
    requires Le(w, Crown(w, n, noop))
    ensures ReignOk(Crown(w, n, noop), w.nodes[n].term) && NodeOk(Crown(w, n, noop), n)
  {
    var w', v := Crown(w, n, noop), w.nodes[n];
    var t := v.term;
    StandingAt(w, n);
    hide Inv;
    ExtendedLogOk(w.h, w'.h, v.log, noop);
    assert AllVoted(w'.h, q, t, n);
    ExtendCommitted(w.h, w'.h, v.log, noop, v.commit, t);
  }

  lemma StandingAt(w: World, n: NodeId)
    requires Inv(w) && n in w.nodes && w.nodes[n].duty == Standing
    ensures NodeOk(w, n) && At(n, w.nodes[n].term) in w.h.campaigns && CampaignOk(w, At(n, w.nodes[n].term))
  {
  }

  lemma ExtendCommitted(h: History, h': History, log: seq<Entry>, e: Entry, c: Index, t: Term)
    requires HistoryLe(h, h') && Committed(h, log, c, t)
    ensures Committed(h', log + [e], c, t)
  {
    CommittedStable(h, h', log, c, t, t);
    if c != 0 {
      var s: Term :| s <= t && CommittedBy(h', log, c, s);
      assert (log + [e])[..c] == log[..c];
      assert CommittedBy(h', log + [e], c, s);
    }
  }

  lemma CrownSuccession(w: World, n: NodeId, q: set<NodeId>, noop: Entry, s: Term)
    requires Inv(w) && n in w.nodes && w.nodes[n].duty == Standing
    requires Quorum(w.config, q) && AllVoted(w.h, q, w.nodes[n].term, n)
    requires s in w.h.reigns && s < w.nodes[n].term
    ensures Succession(Crown(w, n, noop), s, w.nodes[n].term)
  {
    var w', v := Crown(w, n, noop), w.nodes[n];
    var t, log := v.term, v.log + [noop];
    CrownLe(w, n, q, noop);
    assert NodeOk(w, n);
    forall i: Index | w'.h.reigns[s].inherited < i <= |w'.h.reigns[s].log|
      ensures (i <= |v.log| && Agree(log, w'.h.reigns[s].log, i)) || Blocked(w', s, i)
    {
      if f :| f in q && Ack(w.h, f, s) >= i {
        assert VoteOk(w, At(f, t));
        assert AckSafe(w, v.log, s, i);
        if Blocked(w, s, i) { BlockedStable(w, w', s, i); } else { assert log[..i] == v.log[..i]; }
      } else {
        forall f | f in q ensures f in w'.nodes && w'.nodes[f].term > s && Ack(w'.h, f, s) < i {
          assert VoteOk(w, At(f, t));
        }
        assert AllPast(w', q, s, i);
      }
    }
  }

  lemma {:induction false} CrownKeeps(w: World, n: NodeId, q: set<NodeId>, noop: Entry)
    requires Inv(w) && n in w.nodes && w.nodes[n].duty == Standing && Indexed(w.nodes[n].log)
    requires Quorum(w.config, q) && AllVoted(w.h, q, w.nodes[n].term, n)
    requires noop.index == |w.nodes[n].log| + 1 && noop.term == w.nodes[n].term
    ensures Inv(Crown(w, n, noop)) && Le(w, Crown(w, n, noop))
  {
    var w', t := Crown(w, n, noop), w.nodes[n].term;
    NoOtherWinner(w, n, q);
    NoReignNoAcks(w, n, t);
    CrownLe(w, n, q, noop);
    CrownReign(w, n, q, noop);
    forall s | s in w'.h.reigns && s < t ensures Succession(w', s, t) { CrownSuccession(w, n, q, noop, s); }
    ExtendAcks(w, w', n, noop);
    Assemble(w, w', n, t);
  }

  /** A leader that appends keeps what it acknowledged, and holds its own log. */
  lemma ExtendAcks(w: World, w': World, n: NodeId, e: Entry)
    requires Inv(w) && Le(w, w') && n in w.nodes && w'.nodes[n].log == w.nodes[n].log + [e]
    requires w'.nodes[n].term == w.nodes[n].term
    requires w.nodes[n].term in w'.h.reigns && w'.h.reigns[w.nodes[n].term].log == w'.nodes[n].log
    requires w'.h.acks == w.h.acks[At(n, w.nodes[n].term) := |w'.nodes[n].log|]
    ensures forall k {:trigger AckOk(w', k)} :: k in w'.h.acks && k.node == n ==> AckOk(w', k)
  {
    var t := w.nodes[n].term;
    forall k | k in w'.h.acks && k.node == n ensures AckOk(w', k) {
      if k != At(n, t) {
        assert AckOk(w, k);
        ExtendAck(w, w', n, e, k);
      } else {
        forall i: Index | i <= |w'.nodes[n].log| ensures Agree(w'.nodes[n].log, w'.h.reigns[t].log, i) {}
      }
    }
  }

  /** Appending to a log keeps its earlier acknowledgements. */
  lemma ExtendAck(w: World, w': World, n: NodeId, e: Entry, k: At)
    requires Inv(w) && Le(w, w') && n in w.nodes && k in w.h.acks && k.node == n && k.term < w.nodes[n].term
    requires w'.nodes[n].log == w.nodes[n].log + [e] && w'.nodes[n].term == w.nodes[n].term
    requires k in w'.h.acks && w'.h.acks[k] == w.h.acks[k]
    ensures AckOk(w', k)
  {
    assert AckOk(w, k);
    var log, log' := w.nodes[n].log, w'.nodes[n].log;
    assert ReignLe(w.h.reigns[k.term], w'.h.reigns[k.term]);
    forall i: Index | w'.h.reigns[k.term].inherited < i <= w.h.acks[k] ensures AckSafe(w', log', k.term, i) {
      AckSafeStable(w, w', log, k.term, i);
      if !Blocked(w', k.term, i) { assert log'[..i] == log[..i]; }
    }
  }

  // ------------------------------------------------------------ replication

  /** The leader appends an entry of its term, for a write request or of its own accord. */
  ghost function Extend(w: World, n: NodeId, e: Entry, note: Option<Written>): World
    requires n in w.nodes && w.nodes[n].term in w.h.reigns
  {
    var v := w.nodes[n];
    var log := v.log + [e];
    World(w.config,
          w.nodes[n := v.(log := log)],
          w.h.(reigns := w.h.reigns[v.term := w.h.reigns[v.term].(log := log)],
               acks := w.h.acks[At(n, v.term) := |log|],
               wrote := if note.Some? then w.h.wrote[Slot(v.term, |log|) := note.value] else w.h.wrote))
  }

  lemma ExtendLe(w: World, n: NodeId, e: Entry, note: Option<Written>)
    requires Inv(w) && n in w.nodes && w.nodes[n].duty == Leading
    ensures w.nodes[n].term in w.h.reigns
    ensures Le(w, Extend(w, n, e, note))
  {
    var t := w.nodes[n].term;
    assert t in w.h.reigns && w.h.reigns[t].log == w.nodes[n].log by { assert NodeOk(w, n); }
    assert Ack(w.h, n, t) <= |w.nodes[n].log| by { if At(n, t) in w.h.acks { AckAt(w, At(n, t)); } }
    AgreeExtend(w.nodes[n].log, e);
    if Slot(t, |w.nodes[n].log| + 1) in w.h.wrote { WroteAt(w, Slot(t, |w.nodes[n].log| + 1)); }
    HistoryExtends(w.h, Extend(w, n, e, note).h, n, t);
  }

  lemma AgreeExtend(log: seq<Entry>, e: Entry)
    ensures Agree(log, log + [e], |log|)
  {
  }

  /** Changing one reign and the leader's own acknowledgement upwards is progress. */
  lemma HistoryExtends(h: History, h': History, n: NodeId, t: Term)
    requires t in h.reigns && t in h'.reigns && ReignLe(h.reigns[t], h'.reigns[t])
    requires h'.reigns == h.reigns[t := h'.reigns[t]]
    requires At(n, t) in h'.acks && h'.acks == h.acks[At(n, t) := h'.acks[At(n, t)]]
    requires Ack(h, n, t) <= h'.acks[At(n, t)]
    requires h' == h.(reigns := h'.reigns, acks := h'.acks, wrote := h'.wrote)
    requires forall k :: k in h.wrote ==> k in h'.wrote && h'.wrote[k] == h.wrote[k]
    ensures HistoryLe(h, h')
    ensures forall f, r :: At(f, r) != At(n, t) ==> Ack(h', f, r) == Ack(h, f, r)
  {
  }

  lemma ExtendedLogOk(h: History, h': History, log: seq<Entry>, e: Entry)
    requires HistoryLe(h, h') && LogOk(h, log)
    requires e.term in h'.reigns && h'.reigns[e.term].log == log + [e] && h'.reigns[e.term].inherited <= |log|
    ensures LogOk(h', log + [e])
  {
    LogStable(h, h', log);
    forall i | 0 <= i < |log| + 1 ensures EntryOk(h', log + [e], i) {
      if i < |log| {
        assert EntryOk(h', log, i);
        assert (log + [e])[..i + 1] == log[..i + 1];
      }
    }
  }

  lemma ExtendReign(w: World, n: NodeId, e: Entry, note: Option<Written>)
    requires Inv(w) && n in w.nodes && w.nodes[n].duty == Leading && w.nodes[n].term in w.h.reigns
    requires e.index == |w.nodes[n].log| + 1 && e.term == w.nodes[n].term
    requires Le(w, Extend(w, n, e, note))
    ensures ReignOk(Extend(w, n, e, note), w.nodes[n].term)
  {
    var w', v := Extend(w, n, e, note), w.nodes[n];
    var t := v.term;
    var r := w.h.reigns[t];
    assert r.leader == n && r.log == v.log && LogOk(w.h, v.log) by { assert NodeOk(w, n); }
    assert r.inherited < |r.log| by { assert ReignOk(w, t); }
    ExtendedLogOk(w.h, w'.h, v.log, e);
    ReignExtends(w, w', t, e);
  }

  /** A reign whose leader appended an entry of its term, and holds it. */
  lemma ReignExtends(w: World, w': World, t: Term, e: Entry)
    requires Inv(w) && Le(w, w') && t in w.h.reigns
    requires w'.h.reigns[t] == w.h.reigns[t].(log := w.h.reigns[t].log + [e])
    requires e.term == t && e.index == |w.h.reigns[t].log| + 1 && LogOk(w'.h, w.h.reigns[t].log + [e])
    requires Ack(w'.h, w.h.reigns[t].leader, t) == |w.h.reigns[t].log| + 1
    ensures ReignOk(w', t)
  {
    hide Quorum;
    var r := w.h.reigns[t];
    assert ReignOk(w, t);
    assert ViewLe(w, w.nodes[r.leader], w'.nodes[r.leader]);
    var q :| Quorum(w.config, q) && AllVoted(w.h, q, t, r.leader);
    assert AllVoted(w'.h, q, t, r.leader);
    if r.committed != 0 { ChosenStable(w, w', t, r.committed); }
  }

  lemma ExtendNode(w: World, n: NodeId, e: Entry, note: Option<Written>)
    requires Inv(w) && n in w.nodes && w.nodes[n].duty == Leading && w.nodes[n].term in w.h.reigns
    requires e.index == |w.nodes[n].log| + 1 && e.term == w.nodes[n].term
    requires Le(w, Extend(w, n, e, note))
    ensures NodeOk(Extend(w, n, e, note), n)
  {
    var w', v := Extend(w, n, e, note), w.nodes[n];
    assert NodeOk(w, n) && ReignOk(w, v.term);
    ExtendedLogOk(w.h, w'.h, v.log, e);
    ExtendCommitted(w.h, w'.h, v.log, e, v.commit, v.term);
  }

  lemma {:induction false} ExtendKeeps(w: World, n: NodeId, e: Entry, note: Option<Written>)
    requires Inv(w) && n in w.nodes && w.nodes[n].duty == Leading
    requires e.index == |w.nodes[n].log| + 1 && e.term == w.nodes[n].term
    requires note.Some? ==> e.command == Some(note.value.command)
    ensures w.nodes[n].term in w.h.reigns
    ensures Inv(Extend(w, n, e, note)) && Le(w, Extend(w, n, e, note))
  {
    hide Le;
    ExtendLe(w, n, e, note);
    var w', t := Extend(w, n, e, note), w.nodes[n].term;
    ExtendReign(w, n, e, note);
    ExtendNode(w, n, e, note);
    ExtendAcks(w, w', n, e);
    assert w.h.reigns[t].leader == n by { assert NodeOk(w, n); }
    if At(n, t) in w.h.readAcks { assert ReadAckOk(w, At(n, t)); ReadAckStable(w, w', At(n, t)); }
    Assemble(w, w', n, t);
  }

  /** A follower takes over its leader's log up to k, and says so. */
  ghost function Accept(w: World, f: NodeId, log: seq<Entry>, k: Index): World
    requires f in w.nodes
  {
    var t := w.nodes[f].term;
    World(w.config,
          w.nodes[f := w.nodes[f].(log := log)],
          w.h.(acks := w.h.acks[At(f, t) := Max(Ack(w.h, f, t), k)]))
  }

  /** The log already agrees with the leader's, or is cut and rewritten up to k. */
  ghost predicate Acceptable(mine: seq<Entry>, leaders: seq<Entry>, log: seq<Entry>, k: Index) {
    Agree(log, leaders, k) && (log == mine || (|log| == k && !Agree(mine, leaders, k)))
  }

  lemma KeptPrefix(mine: seq<Entry>, leaders: seq<Entry>, log: seq<Entry>, k: Index, i: Index)
    requires Acceptable(mine, leaders, log, k) && Agree(mine, leaders, i)
    ensures Agree(log, leaders, i) && Agree(log, mine, i)
  {
    if log != mine {
      if k <= i { AgreeShorter(mine, leaders, i, k); }
      AgreeShorter(log, leaders, k, i);
      AgreeChain(log, leaders, mine, i);
    }
  }

  lemma AcceptLog(w: World, f: NodeId, log: seq<Entry>, k: Index)
    requires Inv(w) && f in w.nodes && w.nodes[f].term in w.h.reigns
    requires Acceptable(w.nodes[f].log, w.h.reigns[w.nodes[f].term].log, log, k)
    ensures LogOk(w.h, log) && TermsUpTo(log, w.nodes[f].term)
  {
    var t := w.nodes[f].term;
    var leaders := w.h.reigns[t].log;
    assert NodeOk(w, f) && ReignOk(w, t);
    if log != w.nodes[f].log {
      forall i | 0 <= i < |log| ensures EntryOk(w.h, log, i) && log[i].term <= t {
        assert EntryOk(w.h, leaders, i);
        AgreeAt(log, leaders, k, i);
        AgreeShorter(log, leaders, k, i + 1);
        AgreeChain(log, leaders, w.h.reigns[log[i].term].log, i + 1);
      }
    }
  }

  lemma AcceptNode(w: World, f: NodeId, log: seq<Entry>, k: Index)
    requires Inv(w) && f in w.nodes && w.nodes[f].duty == Idle && w.nodes[f].term in w.h.reigns
    requires Acceptable(w.nodes[f].log, w.h.reigns[w.nodes[f].term].log, log, k)
    requires Le(w, Accept(w, f, log, k))
    ensures NodeOk(Accept(w, f, log, k), f)
    ensures Agree(log, w.nodes[f].log, w.nodes[f].commit)
  {
    var w', v := Accept(w, f, log, k), w.nodes[f];
    var t := v.term;
    assert NodeOk(w, f);
    AcceptLog(w, f, log, k);
    LogStable(w.h, w'.h, log);
    CommitAgrees(w, f, t);
    KeptPrefix(v.log, w.h.reigns[t].log, log, k, v.commit);
    CommittedStable(w.h, w'.h, v.log, v.commit, t, t);
    if v.commit != 0 {
      var s: Term :| s <= t && CommittedBy(w'.h, v.log, v.commit, s);
      AgreeChain(log, v.log, w'.h.reigns[s].log, v.commit);
      assert CommittedBy(w'.h, log, v.commit, s);
    }
  }

  lemma AcceptAcks(w: World, f: NodeId, log: seq<Entry>, k: Index, a: At)
    requires Inv(w) && f in w.nodes && w.nodes[f].term in w.h.reigns
    requires Acceptable(w.nodes[f].log, w.h.reigns[w.nodes[f].term].log, log, k)
    requires Le(w, Accept(w, f, log, k))
    requires a in Accept(w, f, log, k).h.acks && a.node == f
    ensures AckOk(Accept(w, f, log, k), a)
  {
    var w', v := Accept(w, f, log, k), w.nodes[f];
    var t := v.term;
    var leaders := w.h.reigns[t].log;
    if a in w.h.acks { assert AckOk(w, a); }
    if a.term == t {
      if a in w.h.acks && w.h.acks[a] > k {
        KeptPrefix(v.log, leaders, log, k, w.h.acks[a]);
      }
      forall i: Index | w'.h.reigns[t].inherited < i <= w'.h.acks[a] ensures AckSafe(w', log, t, i) {
        AgreeShorter(log, leaders, w'.h.acks[a], i);
      }
    } else {
      var theirs := w.h.reigns[a.term].log;
      forall i: Index | w.h.reigns[a.term].inherited < i <= w.h.acks[a] ensures AckSafe(w', log, a.term, i) {
        assert AckSafe(w, v.log, a.term, i);
        SuccessionHolds(w, a.term, t, i);
        if Blocked(w, a.term, i) { BlockedStable(w, w', a.term, i); }
        else {
          AgreeChain(v.log, theirs, leaders, i);
          KeptPrefix(v.log, leaders, log, k, i);
          AgreeChain(log, leaders, theirs, i);
        }
      }
    }
  }

  lemma AcceptLe(w: World, f: NodeId, log: seq<Entry>, k: Index)
    requires f in w.nodes && w.nodes[f].duty == Idle
    ensures Le(w, Accept(w, f, log, k))
  {
  }

  lemma {:induction false} AcceptKeeps(w: World, f: NodeId, log: seq<Entry>, k: Index)
    requires Inv(w) && f in w.nodes && w.nodes[f].duty == Idle && w.nodes[f].term in w.h.reigns
    requires w.h.reigns[w.nodes[f].term].leader != f
    requires Acceptable(w.nodes[f].log, w.h.reigns[w.nodes[f].term].log, log, k)
    ensures Inv(Accept(w, f, log, k)) && Le(w, Accept(w, f, log, k))
    ensures Agree(log, w.nodes[f].log, w.nodes[f].commit)
  {
    var w', t := Accept(w, f, log, k), w.nodes[f].term;
    AcceptLe(w, f, log, k);
    AcceptNode(w, f, log, k);
    assert ReignOk(w, t);
    ReignStable(w, w', t);
    forall a | a in w'.h.acks && a.node == f ensures AckOk(w', a) { AcceptAcks(w, f, log, k, a); }
    if At(f, t) in w.h.readAcks { assert ReadAckOk(w, At(f, t)); ReadAckStable(w, w', At(f, t)); }
    Assemble(w, w', f, t);
  }

  /** The leader commits an index of its own term that a quorum acknowledged. */
  ghost function Decide(w: World, n: NodeId, i: Index): World
    requires n in w.nodes && w.nodes[n].term in w.h.reigns
  {
    var v := w.nodes[n];
    World(w.config,
          w.nodes[n := v.(commit := i)],
          w.h.(reigns := w.h.reigns[v.term := w.h.reigns[v.term].(committed := i)]))
  }

  ghost predicate CanDecide(w: World, n: NodeId, i: Index, q: set<NodeId>) {
    && n in w.nodes && w.nodes[n].duty == Leading && w.nodes[n].term in w.h.reigns
    && w.nodes[n].commit < i && Has(w.nodes[n].log, i, w.nodes[n].term)
    && Quorum(w.config, q) && AllAcked(w.h, q, w.nodes[n].term, i)
  }

  lemma DecideLe(w: World, n: NodeId, i: Index, q: set<NodeId>)
    requires Inv(w) && CanDecide(w, n, i, q)
    ensures Le(w, Decide(w, n, i))
  {
    var t := w.nodes[n].term;
    assert NodeOk(w, n);
    hide Inv;
    assert ReignLe(w.h.reigns[t], Decide(w, n, i).h.reigns[t]);
  }

  lemma DecideReign(w: World, n: NodeId, i: Index, q: set<NodeId>)
    requires Inv(w) && CanDecide(w, n, i, q) && Le(w, Decide(w, n, i))
    ensures ReignOk(Decide(w, n, i), w.nodes[n].term)
  {
    hide Le, Quorum;
    var w', t := Decide(w, n, i), w.nodes[n].term;
    assert NodeOk(w, n) && ReignOk(w, t);
    LogStable(w.h, w'.h, w.nodes[n].log);
    assert AllAcked(w'.h, q, t, i);
    var p :| Quorum(w.config, p) && AllVoted(w.h, p, t, n);
    assert AllVoted(w'.h, p, t, n);
  }

  lemma DecideNode(w: World, n: NodeId, i: Index, q: set<NodeId>)
    requires Inv(w) && CanDecide(w, n, i, q) && Le(w, Decide(w, n, i))
    ensures NodeOk(Decide(w, n, i), n)
  {
    var w', t := Decide(w, n, i), w.nodes[n].term;
    assert NodeOk(w, n);
    LogStable(w.h, w'.h, w.nodes[n].log);
    assert CommittedBy(w'.h, w.nodes[n].log, i, t);
  }

  lemma {:induction false} DecideKeeps(w: World, n: NodeId, i: Index, q: set<NodeId>)
    requires Inv(w) && CanDecide(w, n, i, q)
    ensures Inv(Decide(w, n, i)) && Le(w, Decide(w, n, i))
  {
    var w', t := Decide(w, n, i), w.nodes[n].term;
    DecideLe(w, n, i, q);
    DecideReign(w, n, i, q);
    DecideNode(w, n, i, q);
    AcksKept(w, w', n);
    assert w.h.reigns[t].leader == n by { assert NodeOk(w, n); }
    if At(n, t) in w.h.readAcks { assert ReadAckOk(w, At(n, t)); ReadAckStable(w, w', At(n, t)); }
    Assemble(w, w', n, t);
  }

  // ------------------------------------------------------------------ reads

  /** The entries a leader has committed. */
  ghost function Settled(r: Reign): seq<Entry> {
    if r.committed <= |r.log| then r.log[..r.committed] else r.log
  }

  ghost function Snapshot(w: World, n: NodeId, id: RequestId, query: ReadCommand): ReadRecord
    requires n in w.nodes
  {
    ReadRecord(id, query,
               map m | m in w.nodes :: w.nodes[m].term,
               map s | s in w.h.reigns :: Settled(w.h.reigns[s]),
               w.nodes[n].commit)
  }

  /** A read arrives at the leader and gets the next number. */
  ghost function Ask(w: World, n: NodeId, id: RequestId, query: ReadCommand): World
    requires n in w.nodes && w.nodes[n].term in w.h.reigns
  {
    var t := w.nodes[n].term;
    var q := w.h.reigns[t].readSeq + 1;
    w.(h := w.h.(
        reigns := w.h.reigns[t := w.h.reigns[t].(readSeq := q)],
        readAcks := w.h.readAcks[At(n, t) := q],
        asked := w.h.asked[ReadId(t, q) := Snapshot(w, n, id, query)]))
  }

  /** A quorum that acknowledged a term had reached it. */
  lemma ChosenReached(w: World, t: Term, i: Index, terms: map<NodeId, Term>)
    requires Inv(w) && Chosen(w, t, i)
    requires terms.Keys == w.nodes.Keys && forall f :: f in terms ==> terms[f] == w.nodes[f].term
    ensures exists q :: Quorum(w.config, q) && AllReached(terms, q, t)
  {
    var q :| Quorum(w.config, q) && AllAcked(w.h, q, t, i);
    forall f | f in q ensures f in terms && terms[f] >= t { assert AckOk(w, At(f, t)); }
    assert AllReached(terms, q, t);
  }

  lemma SettledIsCommitted(w: World, s: Term)
    requires Inv(w) && s in w.h.reigns
    ensures var log := Settled(w.h.reigns[s]);
      |log| == w.h.reigns[s].committed && CommittedBy(w.h, log, |log|, s)
  {
    CommittedIsChosen(w, s);
    var r := w.h.reigns[s];
    assert Settled(r)[..r.committed] == r.log[..r.committed];
  }

  lemma AskOrigin(w: World, w': World, n: NodeId, id: RequestId, query: ReadCommand, s: Term)
    requires Inv(w) && n in w.nodes && w.nodes[n].duty == Leading && w.nodes[n].term in w.h.reigns
    requires HistoryLe(w.h, w'.h) && w'.config == w.config && s in w.h.reigns && Settled(w.h.reigns[s]) != []
    ensures Origin(w', w.nodes[n].term, Snapshot(w, n, id, query), s)
  {
    var t := w.nodes[n].term;
    var rec := Snapshot(w, n, id, query);
    SettledIsCommitted(w, s);
    CommittedByStable(w.h, w'.h, rec.committed[s], |rec.committed[s]|, s);
    if s == t { assert NodeOk(w, n); }
    if s > t {
      CommittedIsChosen(w, s);
      ChosenReached(w, s, w.h.reigns[s].committed, rec.terms);
    }
  }

  lemma AskLe(w: World, n: NodeId, id: RequestId, query: ReadCommand)
    requires Inv(w) && n in w.nodes && w.nodes[n].duty == Leading && w.nodes[n].term in w.h.reigns
    ensures Le(w, Ask(w, n, id, query))
    ensures ReadId(w.nodes[n].term, w.h.reigns[w.nodes[n].term].readSeq + 1) !in w.h.asked
  {
    var t := w.nodes[n].term;
    var k := ReadId(t, w.h.reigns[t].readSeq + 1);
    if k in w.h.asked { ReadAt(w, k); }
    assert ReadAck(w.h, n, t) <= k.serial by { if At(n, t) in w.h.readAcks { ReadAckAt(w, At(n, t)); } }
    HistoryAsks(w.h, Ask(w, n, id, query).h, n, k);
  }

  lemma HistoryAsks(h: History, h': History, n: NodeId, k: ReadId)
    requires k.term in h.reigns && h'.reigns == h.reigns[k.term := h.reigns[k.term].(readSeq := k.serial)]
    requires h.reigns[k.term].readSeq <= k.serial && k !in h.asked
    requires k in h'.asked && h'.asked == h.asked[k := h'.asked[k]]
    requires ReadAck(h, n, k.term) <= k.serial && h'.readAcks == h.readAcks[At(n, k.term) := k.serial]
    requires h' == h.(reigns := h'.reigns, readAcks := h'.readAcks, asked := h'.asked)
    ensures HistoryLe(h, h')
  {
  }

  lemma AskRead(w: World, n: NodeId, id: RequestId, query: ReadCommand)
    requires Inv(w) && n in w.nodes && w.nodes[n].duty == Leading && w.nodes[n].term in w.h.reigns
    requires Le(w, Ask(w, n, id, query))
    ensures ReadOk(Ask(w, n, id, query), ReadId(w.nodes[n].term, w.h.reigns[w.nodes[n].term].readSeq + 1))
  {
    var w' := Ask(w, n, id, query);
    var rec := Snapshot(w, n, id, query);
    assert NodeOk(w, n);
    forall s | s in rec.committed && rec.committed[s] != [] ensures Origin(w', w.nodes[n].term, rec, s) {
      AskOrigin(w, w', n, id, query, s);
    }
  }

  lemma AskReadAck(w: World, n: NodeId, id: RequestId, query: ReadCommand)
    requires Inv(w) && n in w.nodes && w.nodes[n].duty == Leading && w.nodes[n].term in w.h.reigns
    ensures ReadAckOk(Ask(w, n, id, query), At(n, w.nodes[n].term))
  {
    var w', t := Ask(w, n, id, query), w.nodes[n].term;
    var q := w.h.reigns[t].readSeq + 1;
    assert NodeOk(w, n);
    forall p: nat | ReadId(t, p) in w'.h.asked && p <= q
      ensures n in w'.h.asked[ReadId(t, p)].terms && w'.h.asked[ReadId(t, p)].terms[n] <= t
    {
      if p != q { assert ReadOk(w, ReadId(t, p)); }
    }
  }

  lemma {:induction false} AskKeeps(w: World, n: NodeId, id: RequestId, query: ReadCommand)
    requires Inv(w) && n in w.nodes && w.nodes[n].duty == Leading
    ensures w.nodes[n].term in w.h.reigns
    ensures Inv(Ask(w, n, id, query)) && Le(w, Ask(w, n, id, query))
    ensures ReadId(w.nodes[n].term, w.h.reigns[w.nodes[n].term].readSeq + 1) !in w.h.asked
  {
    LeadsItsReign(w, n);
    var w', t := Ask(w, n, id, query), w.nodes[n].term;
    AskLe(w, n, id, query);
    AskRead(w, n, id, query);
    AskReadAck(w, n, id, query);
    AskLocal(w, n, id, query);
    ReadMoveKeeps(w, w', n);
  }

  lemma LeadsItsReign(w: World, n: NodeId)
    requires Inv(w) && n in w.nodes && w.nodes[n].duty == Leading
    ensures w.nodes[n].term in w.h.reigns && w.h.reigns[w.nodes[n].term].leader == n
  {
    assert NodeOk(w, n);
  }

  lemma AskLocal(w: World, n: NodeId, id: RequestId, query: ReadCommand)
    requires n in w.nodes && w.nodes[n].term in w.h.reigns && w.h.reigns[w.nodes[n].term].leader == n
    ensures Local(w, Ask(w, n, id, query), n, w.nodes[n].term)
  {
  }

  /** A move that changes neither the nodes nor what the reigns wrote and committed. */
  lemma ReadMoveKeeps(w: World, w': World, n: NodeId)
    requires Inv(w) && Le(w, w') && n in w.nodes && w.nodes[n].term in w.h.reigns
    requires w'.nodes == w.nodes && Local(w, w', n, w.nodes[n].term)
    requires w'.h.acks == w.h.acks && w'.h.votes == w.h.votes && w'.h.campaigns == w.h.campaigns && w'.h.wrote == w.h.wrote
    requires w'.h.reigns.Keys == w.h.reigns.Keys
    requires w'.h.reigns[w.nodes[n].term].log == w.h.reigns[w.nodes[n].term].log
    requires w'.h.reigns[w.nodes[n].term].committed == w.h.reigns[w.nodes[n].term].committed
    requires forall k {:trigger ReadOk(w', k)} :: k in w'.h.asked && k !in w.h.asked ==> ReadOk(w', k)
    requires At(n, w.nodes[n].term) in w'.h.readAcks ==> ReadAckOk(w', At(n, w.nodes[n].term))
    ensures Inv(w')
  {
    var t := w.nodes[n].term;
    ReignAt(w, t);
    ReignStable(w, w', t);
    assert NodeOk(w', n) by { assert NodeOk(w, n); NodeStable(w, w', n); }
    AcksKept(w, w', n);
    Assemble(w, w', n, t);
  }

  /** A node of the leader's term confirms its leadership up to read q. */
  ghost function Confirm(w: World, f: NodeId, q: nat): World
    requires f in w.nodes
  {
    var t := w.nodes[f].term;
    w.(h := w.h.(readAcks := w.h.readAcks[At(f, t) := Max(ReadAck(w.h, f, t), q)]))
  }

  lemma ConfirmReadAck(w: World, f: NodeId, q: nat)
    requires Inv(w) && f in w.nodes && w.nodes[f].term in w.h.reigns
    requires q <= w.h.reigns[w.nodes[f].term].readSeq
    ensures ReadAckOk(Confirm(w, f, q), At(f, w.nodes[f].term))
  {
    var w', t := Confirm(w, f, q), w.nodes[f].term;
    if At(f, t) in w.h.readAcks { assert ReadAckOk(w, At(f, t)); }
    forall p: nat | ReadId(t, p) in w'.h.asked && p <= w'.h.readAcks[At(f, t)]
      ensures f in w'.h.asked[ReadId(t, p)].terms && w'.h.asked[ReadId(t, p)].terms[f] <= t
    {
      assert ReadOk(w, ReadId(t, p));
    }
  }

  lemma {:induction false} ConfirmKeeps(w: World, f: NodeId, q: nat)
    requires Inv(w) && f in w.nodes && w.nodes[f].term in w.h.reigns
    requires q <= w.h.reigns[w.nodes[f].term].readSeq
    ensures Inv(Confirm(w, f, q)) && Le(w, Confirm(w, f, q))
  {
    var w', t := Confirm(w, f, q), w.nodes[f].term;
    assert Le(w, w');
    ConfirmReadAck(w, f, q);
    ReadMoveKeeps(w, w', f);
  }
}
