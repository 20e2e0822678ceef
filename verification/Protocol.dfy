/** What a cluster with one fixed configuration knows and has known. A `World` holds
    the safety-relevant part of every node together with a history of elections,
    votes, acknowledgements and reads. The history exists only for the proof: the
    nodes and the network of Cluster.dfy do not contain it. */
module Protocol {
  import opened Basics
  import opened Configuration
  import opened Machine
  import opened LogSpec

  datatype Duty = Idle | Standing | Leading

  datatype View = View(term: Term, vote: Option<NodeId>, log: seq<Entry>, commit: Index, duty: Duty)

  datatype At = At(node: NodeId, term: Term)

  /** One leadership: who led, how long the log was when elected, the log written
      since, the highest index the leader committed and its read counter. */
  datatype Reign = Reign(leader: NodeId, inherited: nat, log: seq<Entry>, committed: Index, readSeq: nat)

  /** A read request, with the term of every node and the entries every leader had
      committed when it arrived. */
  datatype ReadRecord = ReadRecord(
    id: RequestId, query: ReadCommand, terms: map<NodeId, Term>, committed: map<Term, seq<Entry>>, floor: Index)

  /** A write request that the leader of a term put at an index. */
  datatype Written = Written(id: RequestId, command: Command)

  datatype Slot = Slot(term: Term, index: Index)

  datatype ReadId = ReadId(term: Term, serial: nat)

  datatype History = History(
    votes: map<At, NodeId>,
    campaigns: map<At, seq<Entry>>,
    reigns: map<Term, Reign>,
    acks: map<At, Index>,
    readAcks: map<At, nat>,
    asked: map<ReadId, ReadRecord>,
    wrote: map<Slot, Written>)

  datatype World = World(config: Membership, nodes: map<NodeId, View>, h: History)

  // ---------------------------------------------------------- vocabulary

  ghost function Ack(h: History, f: NodeId, t: Term): Index {
    if At(f, t) in h.acks then h.acks[At(f, t)] else 0
  }

  ghost function ReadAck(h: History, f: NodeId, t: Term): nat {
    if At(f, t) in h.readAcks then h.readAcks[At(f, t)] else 0
  }

  ghost predicate Quorum(config: Membership, q: set<NodeId>) {
    q <= config.voters && config.HasQuorum(q)
  }

  ghost predicate Agree(a: seq<Entry>, b: seq<Entry>, k: nat) {
    k <= |a| && k <= |b| && a[..k] == b[..k]
  }

  /** A quorum acknowledged index i to the leader of term t, and i was written in t. */
  ghost predicate Chosen(w: World, t: Term, i: Index) {
    && t in w.h.reigns
    && w.h.reigns[t].inherited < i <= |w.h.reigns[t].log|
    && exists q :: Quorum(w.config, q) && AllAcked(w.h, q, t, i)
  }

  ghost predicate AllAcked(h: History, q: set<NodeId>, t: Term, i: Index) {
    forall f :: f in q ==> Ack(h, f, t) >= i
  }

  /** A quorum has moved past term t without acknowledging i, so (t, i) will never be chosen. */
  ghost predicate Blocked(w: World, t: Term, i: Index) {
    exists q :: Quorum(w.config, q) && AllPast(w, q, t, i)
  }

  ghost predicate AllPast(w: World, q: set<NodeId>, t: Term, i: Index) {
    forall f :: f in q ==> f in w.nodes && w.nodes[f].term > t && Ack(w.h, f, t) < i
  }

  /** The entry at position i was written by the leader of its term, on top of
      exactly the entries before it. */
  ghost predicate EntryOk(h: History, log: seq<Entry>, i: nat)
    requires i < |log|
  {
    var t := log[i].term;
    && t in h.reigns
    && h.reigns[t].inherited <= i < |h.reigns[t].log|
    && Agree(log, h.reigns[t].log, i + 1)
  }

  ghost predicate LogOk(h: History, log: seq<Entry>) {
    forall i {:trigger EntryOk(h, log, i)} :: 0 <= i < |log| ==> EntryOk(h, log, i)
  }

  ghost predicate TermsUpTo(log: seq<Entry>, t: Term) {
    forall i :: 0 <= i < |log| ==> log[i].term <= t
  }

  /** The first c entries of a log were committed by some leader of a term up to t. */
  ghost predicate CommittedBy(h: History, log: seq<Entry>, c: Index, s: Term) {
    s in h.reigns && c <= h.reigns[s].committed && Agree(log, h.reigns[s].log, c)
  }

  ghost predicate Committed(h: History, log: seq<Entry>, c: Index, t: Term) {
    c == 0 || exists s: Term :: s <= t && CommittedBy(h, log, c, s)
  }

  // ----------------------------------------------------------- invariant

  ghost predicate AllVoted(h: History, q: set<NodeId>, t: Term, c: NodeId) {
    forall v :: v in q ==> At(v, t) in h.votes && h.votes[At(v, t)] == c
  }

  ghost predicate ReignOk(w: World, t: Term)
    requires t in w.h.reigns
  {
    var r := w.h.reigns[t];
    && t >= 1
    && r.leader in w.nodes && w.nodes[r.leader].term >= t
    && r.inherited < |r.log|
    && LogOk(w.h, r.log)
    && Indexed(r.log)
    && (forall i :: 0 <= i < |r.log| ==> if i < r.inherited then r.log[i].term < t else r.log[i].term == t)
    && (r.committed == 0 || Chosen(w, t, r.committed))
    && Ack(w.h, r.leader, t) == |r.log|
    && (exists q :: Quorum(w.config, q) && AllVoted(w.h, q, t, r.leader))
  }

  ghost predicate NodeOk(w: World, n: NodeId)
    requires n in w.nodes
  {
    var v := w.nodes[n];
    && LogOk(w.h, v.log)
    && TermsUpTo(v.log, v.term)
    && v.commit <= |v.log|
    && Committed(w.h, v.log, v.commit, v.term)
    && (v.duty == Leading ==>
        && v.term in w.h.reigns
        && w.h.reigns[v.term].leader == n
        && w.h.reigns[v.term].log == v.log
        && w.h.reigns[v.term].committed <= v.commit)
    && (v.duty == Standing ==>
        && At(n, v.term) in w.h.campaigns
        && w.h.campaigns[At(n, v.term)] == v.log
        && (v.term in w.h.reigns ==> w.h.reigns[v.term].leader != n))
    && (v.vote.Some? ==> At(n, v.term) in w.h.votes && w.h.votes[At(n, v.term)] == v.vote.value)
  }

  ghost predicate AckSafe(w: World, log: seq<Entry>, s: Term, i: Index)
    requires s in w.h.reigns
  {
    Agree(log, w.h.reigns[s].log, i) || Blocked(w, s, i)
  }

  /** Whatever the voter acknowledged to earlier leaders is in the candidate's log,
      or can no longer be chosen. */
  ghost predicate VoteSafe(w: World, v: NodeId, t: Term, log: seq<Entry>) {
    forall s: Term, i: Index :: s < t && s in w.h.reigns && w.h.reigns[s].inherited < i <= Ack(w.h, v, s) ==> AckSafe(w, log, s, i)
  }

  ghost predicate VoteOk(w: World, k: At)
    requires k in w.h.votes
  {
    var c := w.h.votes[k];
    && k.node in w.nodes && c in w.nodes
    && w.nodes[k.node].term >= k.term
    && (w.nodes[k.node].term == k.term ==> w.nodes[k.node].vote == Some(c))
    && At(c, k.term) in w.h.campaigns
    && VoteSafe(w, k.node, k.term, w.h.campaigns[At(c, k.term)])
  }

  ghost predicate CampaignOk(w: World, k: At)
    requires k in w.h.campaigns
  {
    && k.node in w.nodes
    && k.term >= 1
    && w.nodes[k.node].term >= k.term
    && LogOk(w.h, w.h.campaigns[k])
    && TermsUpTo(w.h.campaigns[k], k.term - 1)
  }

  ghost predicate AckOk(w: World, k: At)
    requires k in w.h.acks
  {
    var a := w.h.acks[k];
    && k.node in w.nodes && k.term in w.h.reigns
    && k.term <= w.nodes[k.node].term
    && a <= |w.h.reigns[k.term].log|
    && (forall i: Index :: w.h.reigns[k.term].inherited < i <= a ==> AckSafe(w, w.nodes[k.node].log, k.term, i))
    && (k.term == w.nodes[k.node].term ==> Agree(w.nodes[k.node].log, w.h.reigns[k.term].log, a))
  }

  /** Leader completeness, in a form that every step keeps. */
  ghost predicate Succession(w: World, s: Term, t: Term)
    requires s in w.h.reigns && t in w.h.reigns
  {
    forall i: Index :: w.h.reigns[s].inherited < i <= |w.h.reigns[s].log| ==>
      (i <= w.h.reigns[t].inherited && Agree(w.h.reigns[t].log, w.h.reigns[s].log, i)) || Blocked(w, s, i)
  }

  ghost predicate AllReached(terms: map<NodeId, Term>, q: set<NodeId>, s: Term) {
    forall f :: f in q ==> f in terms && terms[f] >= s
  }

  /** Where the entries that the leader of term s had committed stood when a read of
      term t arrived. */
  ghost predicate Origin(w: World, t: Term, rec: ReadRecord, s: Term)
    requires s in rec.committed
  {
    var log := rec.committed[s];
    && CommittedBy(w.h, log, |log|, s)
    && (s == t ==> |log| <= rec.floor)
    && (s > t ==> exists q :: Quorum(w.config, q) && AllReached(rec.terms, q, s))
  }

  ghost predicate ReadOk(w: World, k: ReadId)
    requires k in w.h.asked
  {
    var rec := w.h.asked[k];
    && k.term in w.h.reigns
    && 1 <= k.serial <= w.h.reigns[k.term].readSeq
    && rec.terms.Keys == w.nodes.Keys
    && (forall f :: f in rec.terms ==> f in w.nodes && rec.terms[f] <= w.nodes[f].term)
    && (forall s {:trigger Origin(w, k.term, rec, s)} :: s in rec.committed && rec.committed[s] != [] ==> Origin(w, k.term, rec, s))
    && (var n := w.h.reigns[k.term].leader;
        n in w.nodes && w.nodes[n].duty == Leading && w.nodes[n].term == k.term ==> rec.floor <= w.nodes[n].commit)
  }

  ghost predicate ReadAckOk(w: World, k: At)
    requires k in w.h.readAcks
  {
    && k.node in w.nodes && k.term in w.h.reigns
    && k.term <= w.nodes[k.node].term
    && w.h.readAcks[k] <= w.h.reigns[k.term].readSeq
    && (forall q :: ReadId(k.term, q) in w.h.asked && q <= w.h.readAcks[k] ==>
          k.node in w.h.asked[ReadId(k.term, q)].terms && w.h.asked[ReadId(k.term, q)].terms[k.node] <= k.term)
  }

  ghost predicate WroteOk(w: World, k: Slot)
    requires k in w.h.wrote
  {
    && k.term in w.h.reigns
    && w.h.reigns[k.term].inherited < k.index <= |w.h.reigns[k.term].log|
    && w.h.reigns[k.term].log[k.index - 1].command == Some(w.h.wrote[k].command)
  }

  ghost predicate Inv(w: World) {
    && w.nodes.Keys == w.config.voters
    && (forall t {:trigger ReignOk(w, t)} :: t in w.h.reigns ==> ReignOk(w, t))
    && (forall n {:trigger NodeOk(w, n)} :: n in w.nodes ==> NodeOk(w, n))
    && (forall k {:trigger VoteOk(w, k)} :: k in w.h.votes ==> VoteOk(w, k))
    && (forall k {:trigger CampaignOk(w, k)} :: k in w.h.campaigns ==> CampaignOk(w, k))
    && (forall k {:trigger AckOk(w, k)} :: k in w.h.acks ==> AckOk(w, k))
    && (forall s, t {:trigger Succession(w, s, t)} :: s in w.h.reigns && t in w.h.reigns && s < t ==> Succession(w, s, t))
    && (forall k {:trigger ReadOk(w, k)} :: k in w.h.asked ==> ReadOk(w, k))
    && (forall k {:trigger ReadAckOk(w, k)} :: k in w.h.readAcks ==> ReadAckOk(w, k))
    && (forall k {:trigger WroteOk(w, k)} :: k in w.h.wrote ==> WroteOk(w, k))
  }

  // -------------------------------------------------------- progress order

  ghost predicate ReignLe(r: Reign, r': Reign) {
    && r'.leader == r.leader && r'.inherited == r.inherited
    && Agree(r.log, r'.log, |r.log|)
    && r.committed <= r'.committed && r.readSeq <= r'.readSeq
  }

  ghost predicate HistoryLe(h: History, h': History) {
    && (forall k :: k in h.votes ==> k in h'.votes && h'.votes[k] == h.votes[k])
    && (forall k :: k in h.campaigns ==> k in h'.campaigns && h'.campaigns[k] == h.campaigns[k])
    && (forall t {:trigger t in h.reigns} {:trigger t in h'.reigns} :: t in h.reigns ==> t in h'.reigns && ReignLe(h.reigns[t], h'.reigns[t]))
    && (forall f, t :: Ack(h, f, t) <= Ack(h', f, t))
    && (forall f, t :: ReadAck(h, f, t) <= ReadAck(h', f, t))
    && (forall k :: k in h.asked ==> k in h'.asked && h'.asked[k] == h.asked[k])
    && (forall k :: k in h.wrote ==> k in h'.wrote && h'.wrote[k] == h.wrote[k])
  }

  ghost predicate ViewLe(w: World, v: View, v': View) {
    && v.term <= v'.term
    && (v'.term == v.term && v.vote.Some? ==> v'.vote == v.vote)
    && (v'.term == v.term && v'.duty == Leading && v.term in w.h.reigns ==> v.duty == Leading && v.commit <= v'.commit)
  }

  /** The world may move from w to w'. */
  ghost predicate Le(w: World, w': World) {
    && w'.config == w.config && w'.nodes.Keys == w.nodes.Keys
    && (forall n {:trigger w'.nodes[n]} :: n in w.nodes ==> ViewLe(w, w.nodes[n], w'.nodes[n]))
    && HistoryLe(w.h, w'.h)
    && (forall f, t: Term :: f in w.nodes && t < w.nodes[f].term ==> Ack(w'.h, f, t) == Ack(w.h, f, t))
  }

  lemma AgreeShorter(a: seq<Entry>, b: seq<Entry>, k: nat, j: nat)
    requires Agree(a, b, k) && j <= k
    ensures Agree(a, b, j)
  {
    assert a[..j] == a[..k][..j];
    assert b[..j] == b[..k][..j];
  }

  lemma AgreeChain(a: seq<Entry>, b: seq<Entry>, c: seq<Entry>, k: nat)
    requires Agree(a, b, k) && Agree(b, c, k)
    ensures Agree(a, c, k) && Agree(c, a, k)
  {
  }

  lemma AgreeAt(a: seq<Entry>, b: seq<Entry>, k: nat, i: nat)
    requires Agree(a, b, k) && i < k
    ensures a[i] == b[i]
  {
    assert a[i] == a[..k][i] == b[..k][i] == b[i];
  }

  lemma QuorumsMeet(config: Membership, a: set<NodeId>, b: set<NodeId>) returns (x: NodeId)
    requires Quorum(config, a) && Quorum(config, b)
    ensures x in a && x in b && x in config.voters
  {
    x := MajoritiesIntersect(config, a, b);
  }

  lemma BlockedStable(w: World, w': World, t: Term, i: Index)
    requires Le(w, w') && Blocked(w, t, i)
    ensures Blocked(w', t, i)
  {
    var q :| Quorum(w.config, q) && AllPast(w, q, t, i);
    forall f | f in q ensures f in w'.nodes && w'.nodes[f].term > t && Ack(w'.h, f, t) < i {
      assert ViewLe(w, w.nodes[f], w'.nodes[f]);
      assert Ack(w'.h, f, t) == Ack(w.h, f, t);
    }
    assert AllPast(w', q, t, i);
  }

  lemma ChosenStable(w: World, w': World, t: Term, i: Index)
    requires Le(w, w') && Chosen(w, t, i)
    ensures Chosen(w', t, i)
  {
    var q :| Quorum(w.config, q) && AllAcked(w.h, q, t, i);
    assert ReignLe(w.h.reigns[t], w'.h.reigns[t]);
    assert AllAcked(w'.h, q, t, i);
  }

  lemma ChosenNotBlocked(w: World, t: Term, i: Index)
    requires Chosen(w, t, i)
    ensures !Blocked(w, t, i)
  {
    if Blocked(w, t, i) {
      var a :| Quorum(w.config, a) && AllAcked(w.h, a, t, i);
      var b :| Quorum(w.config, b) && AllPast(w, b, t, i);
      var x := QuorumsMeet(w.config, a, b);
      assert false;
    }
  }

  lemma EntryStable(h: History, h': History, log: seq<Entry>, i: nat)
    requires HistoryLe(h, h') && i < |log| && EntryOk(h, log, i)
    ensures EntryOk(h', log, i)
  {
    var t := log[i].term;
    var r, r' := h.reigns[t], h'.reigns[t];
    assert ReignLe(r, r');
    AgreeShorter(r.log, r'.log, |r.log|, i + 1);
    AgreeChain(log, r.log, r'.log, i + 1);
  }

  lemma LogStable(h: History, h': History, log: seq<Entry>)
    requires HistoryLe(h, h') && LogOk(h, log)
    ensures LogOk(h', log)
  {
    forall i | 0 <= i < |log| ensures EntryOk(h', log, i) {
      EntryStable(h, h', log, i);
    }
  }

  lemma AgreeGrows(h: History, h': History, log: seq<Entry>, s: Term, i: nat)
    requires HistoryLe(h, h') && s in h.reigns && Agree(log, h.reigns[s].log, i)
    ensures s in h'.reigns && Agree(log, h'.reigns[s].log, i)
  {
    var r, r' := h.reigns[s], h'.reigns[s];
    assert ReignLe(r, r');
    AgreeShorter(r.log, r'.log, |r.log|, i);
    AgreeChain(log, r.log, r'.log, i);
  }

  lemma CommittedByStable(h: History, h': History, log: seq<Entry>, c: Index, s: Term)
    requires HistoryLe(h, h') && CommittedBy(h, log, c, s)
    ensures CommittedBy(h', log, c, s)
  {
    AgreeGrows(h, h', log, s, c);
    assert ReignLe(h.reigns[s], h'.reigns[s]);
  }

  lemma CommittedStable(h: History, h': History, log: seq<Entry>, c: Index, t: Term, t': Term)
    requires HistoryLe(h, h') && Committed(h, log, c, t) && t <= t'
    ensures Committed(h', log, c, t')
  {
    if c != 0 {
      var s: Term :| s <= t && CommittedBy(h, log, c, s);
      CommittedByStable(h, h', log, c, s);
    }
  }

  // ------------------------------------------------- stability of the parts

  lemma ReignStable(w: World, w': World, t: Term)
    requires Le(w, w') && t in w.h.reigns && ReignOk(w, t)
    requires w'.h.reigns[t].log == w.h.reigns[t].log && w'.h.reigns[t].committed == w.h.reigns[t].committed
    requires Ack(w'.h, w.h.reigns[t].leader, t) == Ack(w.h, w.h.reigns[t].leader, t)
    ensures ReignOk(w', t)
  {
    var r := w.h.reigns[t];
    assert ReignLe(r, w'.h.reigns[t]);
    assert ViewLe(w, w.nodes[r.leader], w'.nodes[r.leader]);
    LogStable(w.h, w'.h, r.log);
    if r.committed != 0 { ChosenStable(w, w', t, r.committed); }
    var q :| Quorum(w.config, q) && AllVoted(w.h, q, t, r.leader);
    assert AllVoted(w'.h, q, t, r.leader);
  }

  lemma NodeStable(w: World, w': World, n: NodeId)
    requires Le(w, w') && n in w.nodes && NodeOk(w, n)
    requires w'.nodes[n] == w.nodes[n]
    requires w.nodes[n].term in w.h.reigns && w.nodes[n].duty == Leading ==>
      w'.h.reigns[w.nodes[n].term].log == w.h.reigns[w.nodes[n].term].log
      && w'.h.reigns[w.nodes[n].term].committed == w.h.reigns[w.nodes[n].term].committed
    requires forall t :: t in w'.h.reigns && t !in w.h.reigns ==> w'.h.reigns[t].leader != n
    ensures NodeOk(w', n)
  {
    var v := w.nodes[n];
    LogStable(w.h, w'.h, v.log);
    CommittedStable(w.h, w'.h, v.log, v.commit, v.term, v.term);
    if v.term in w.h.reigns { assert ReignLe(w.h.reigns[v.term], w'.h.reigns[v.term]); }
  }

  lemma AckSafeStable(w: World, w': World, log: seq<Entry>, s: Term, i: Index)
    requires Le(w, w') && s in w.h.reigns && AckSafe(w, log, s, i)
    ensures s in w'.h.reigns && AckSafe(w', log, s, i)
  {
    if Blocked(w, s, i) { BlockedStable(w, w', s, i); } else { AgreeGrows(w.h, w'.h, log, s, i); }
  }

  lemma VoteSafeStable(w: World, w': World, v: NodeId, t: Term, log: seq<Entry>)
    requires Inv(w) && Le(w, w') && v in w.nodes && w.nodes[v].term >= t && VoteSafe(w, v, t, log)
    ensures VoteSafe(w', v, t, log)
  {
    forall s: Term, i: Index | s < t && s in w'.h.reigns && w'.h.reigns[s].inherited < i <= Ack(w'.h, v, s) ensures AckSafe(w', log, s, i) {
      assert Ack(w'.h, v, s) == Ack(w.h, v, s);
      assert At(v, s) in w.h.acks && AckOk(w, At(v, s));
      assert ReignLe(w.h.reigns[s], w'.h.reigns[s]);
      AckSafeStable(w, w', log, s, i);
    }
  }

  lemma VoteStable(w: World, w': World, k: At)
    requires Inv(w) && Le(w, w') && k in w.h.votes
    ensures VoteOk(w', k)
  {
    assert VoteOk(w, k);
    assert ViewLe(w, w.nodes[k.node], w'.nodes[k.node]);
    VoteSafeStable(w, w', k.node, k.term, w.h.campaigns[At(w.h.votes[k], k.term)]);
  }

  lemma CampaignStable(w: World, w': World, k: At)
    requires Le(w, w') && k in w.h.campaigns && CampaignOk(w, k)
    ensures CampaignOk(w', k)
  {
    assert ViewLe(w, w.nodes[k.node], w'.nodes[k.node]);
    LogStable(w.h, w'.h, w.h.campaigns[k]);
  }

  lemma AckStable(w: World, w': World, k: At)
    requires Le(w, w') && k in w.h.acks && AckOk(w, k)
    requires w'.nodes[k.node].log == w.nodes[k.node].log
    requires k in w'.h.acks && w'.h.acks[k] == w.h.acks[k]
    ensures AckOk(w', k)
  {
    var log := w.nodes[k.node].log;
    assert ViewLe(w, w.nodes[k.node], w'.nodes[k.node]);
    assert ReignLe(w.h.reigns[k.term], w'.h.reigns[k.term]);
    forall i: Index | w'.h.reigns[k.term].inherited < i <= w.h.acks[k] ensures AckSafe(w', log, k.term, i) {
      AckSafeStable(w, w', log, k.term, i);
    }
    if k.term == w.nodes[k.node].term { AgreeGrows(w.h, w'.h, log, k.term, w.h.acks[k]); }
  }

  /** Voters of a later leader have all moved past an earlier term. */
  lemma LaterVotersBlock(w: World, w': World, s: Term, t: Term, i: Index)
    requires Inv(w) && Le(w, w') && t in w.h.reigns && s < t
    requires s in w.h.reigns ==> i > |w.h.reigns[s].log|
    requires i > 0
    ensures Blocked(w', s, i)
  {
    assert ReignOk(w, t);
    var c := w.h.reigns[t].leader;
    var q :| Quorum(w.config, q) && AllVoted(w.h, q, t, c);
    forall f | f in q ensures f in w'.nodes && w'.nodes[f].term > s && Ack(w'.h, f, s) < i {
      assert VoteOk(w, At(f, t));
      assert ViewLe(w, w.nodes[f], w'.nodes[f]);
      assert Ack(w'.h, f, s) == Ack(w.h, f, s);
      if At(f, s) in w.h.acks { assert AckOk(w, At(f, s)); }
    }
    assert AllPast(w', q, s, i);
  }

  lemma SuccessionStable(w: World, w': World, s: Term, t: Term)
    requires Inv(w) && Le(w, w') && s in w'.h.reigns && t in w.h.reigns && s < t
    ensures Succession(w', s, t)
  {
    assert ReignLe(w.h.reigns[t], w'.h.reigns[t]);
    forall i: Index | w'.h.reigns[s].inherited < i <= |w'.h.reigns[s].log|
      ensures (i <= w'.h.reigns[t].inherited && Agree(w'.h.reigns[t].log, w'.h.reigns[s].log, i)) || Blocked(w', s, i)
    {
      if s in w.h.reigns && i <= |w.h.reigns[s].log| {
        var a, b := w.h.reigns[t].log, w.h.reigns[s].log;
        assert Succession(w, s, t) && ReignLe(w.h.reigns[s], w'.h.reigns[s]);
        if Blocked(w, s, i) { BlockedStable(w, w', s, i); }
        else {
          AgreeGrows(w.h, w'.h, a, s, i);
          AgreeShorter(a, w'.h.reigns[t].log, |a|, i);
          AgreeChain(w'.h.reigns[s].log, a, w'.h.reigns[t].log, i);
        }
      } else {
        LaterVotersBlock(w, w', s, t, i);
      }
    }
  }

  lemma ReadStable(w: World, w': World, k: ReadId)
    requires Inv(w) && Le(w, w') && k in w.h.asked
    ensures ReadOk(w', k)
  {
    var rec := w.h.asked[k];
    assert ReadOk(w, k) && ReignOk(w, k.term);
    assert ReignLe(w.h.reigns[k.term], w'.h.reigns[k.term]);
    forall s | s in rec.committed && rec.committed[s] != [] ensures Origin(w', k.term, rec, s) {
      assert Origin(w, k.term, rec, s);
      CommittedByStable(w.h, w'.h, rec.committed[s], |rec.committed[s]|, s);
    }
    forall f | f in rec.terms ensures f in w'.nodes && rec.terms[f] <= w'.nodes[f].term {
      assert ViewLe(w, w.nodes[f], w'.nodes[f]);
    }
    var n := w.h.reigns[k.term].leader;
    if n in w.nodes { assert ViewLe(w, w.nodes[n], w'.nodes[n]); }
  }

  lemma ReadAckStable(w: World, w': World, k: At)
    requires Le(w, w') && k in w.h.readAcks && ReadAckOk(w, k)
    requires k in w'.h.readAcks && w'.h.readAcks[k] == w.h.readAcks[k]
    requires forall q :: ReadId(k.term, q) in w'.h.asked && ReadId(k.term, q) !in w.h.asked ==> q > w.h.readAcks[k]
    ensures ReadAckOk(w', k)
  {
    assert ReignLe(w.h.reigns[k.term], w'.h.reigns[k.term]);
    assert ViewLe(w, w.nodes[k.node], w'.nodes[k.node]);
  }

  lemma WroteStable(w: World, w': World, k: Slot)
    requires Le(w, w') && k in w.h.wrote && WroteOk(w, k)
    ensures WroteOk(w', k)
  {
    var r, r' := w.h.reigns[k.term], w'.h.reigns[k.term];
    assert ReignLe(r, r');
    AgreeAt(r.log, r'.log, |r.log|, k.index - 1);
  }

  // -------------------------------------------------------- consequences

  /** Terms never decrease along a log. */
  lemma TermsAscending(w: World, log: seq<Entry>, i: nat, j: nat)
    requires Inv(w) && LogOk(w.h, log) && i <= j < |log|
    ensures log[i].term <= log[j].term
  {
    var t := log[j].term;
    assert EntryOk(w.h, log, j) && ReignOk(w, t);
    AgreeAt(log, w.h.reigns[t].log, j + 1, i);
  }

  /** Log matching: one index and one term determine all entries up to there. */
  lemma LogsMatch(w: World, a: seq<Entry>, b: seq<Entry>, i: nat)
    requires LogOk(w.h, a) && LogOk(w.h, b) && i < |a| && i < |b| && a[i].term == b[i].term
    ensures Agree(a, b, i + 1)
  {
    assert EntryOk(w.h, a, i) && EntryOk(w.h, b, i);
  }

  /** What a leader committed is in the log of every leader of a later term. */
  lemma LeaderCompleteness(w: World, s: Term, t: Term)
    requires Inv(w) && s in w.h.reigns && t in w.h.reigns && s <= t
    ensures Agree(w.h.reigns[t].log, w.h.reigns[s].log, w.h.reigns[s].committed)
    ensures s < t ==> w.h.reigns[s].committed <= w.h.reigns[t].inherited
  {
    var c := w.h.reigns[s].committed;
    CommittedIsChosen(w, s);
    if s < t && c != 0 {
      ChosenNotBlocked(w, s, c);
      SuccessionHolds(w, s, t, c);
    }
  }

  lemma CommittedIsChosen(w: World, s: Term)
    requires Inv(w) && s in w.h.reigns
    ensures var c := w.h.reigns[s].committed; c <= |w.h.reigns[s].log| && (c != 0 ==> Chosen(w, s, c))
  {
    assert ReignOk(w, s);
  }

  lemma SuccessionHolds(w: World, s: Term, t: Term, i: Index)
    requires Inv(w) && s in w.h.reigns && t in w.h.reigns && s < t
    requires w.h.reigns[s].inherited < i <= |w.h.reigns[s].log|
    ensures (i <= w.h.reigns[t].inherited && Agree(w.h.reigns[t].log, w.h.reigns[s].log, i)) || Blocked(w, s, i)
  {
    assert Succession(w, s, t);
  }

  /** In a term with a leader, a node's committed entries are the leader's. */
  lemma CommitAgrees(w: World, n: NodeId, t: Term)
    requires Inv(w) && n in w.nodes && w.nodes[n].term <= t && t in w.h.reigns
    ensures Agree(w.nodes[n].log, w.h.reigns[t].log, w.nodes[n].commit)
  {
    var v := w.nodes[n];
    assert NodeOk(w, n);
    CommitsAgree(w, v.log, v.commit, v.term, t);
  }

  lemma CommitsAgree(w: World, log: seq<Entry>, c: Index, upTo: Term, t: Term)
    requires Inv(w) && Committed(w.h, log, c, upTo) && upTo <= t && t in w.h.reigns
    ensures Agree(log, w.h.reigns[t].log, c)
  {
    if c != 0 {
      var s: Term :| s <= upTo && CommittedBy(w.h, log, c, s);
      LeaderCompleteness(w, s, t);
      AgreeShorter(w.h.reigns[t].log, w.h.reigns[s].log, w.h.reigns[s].committed, c);
      AgreeChain(log, w.h.reigns[s].log, w.h.reigns[t].log, c);
    }
  }

  /** The committed entries of two nodes are prefixes of one another. */
  lemma CommittedPrefixes(w: World, a: seq<Entry>, s: Term, b: seq<Entry>, t: Term)
    requires Inv(w) && s <= t && CommittedBy(w.h, a, |a|, s) && CommittedBy(w.h, b, |b|, t)
    ensures a <= b || b <= a
  {
    LeaderCompleteness(w, s, t);
    var log := w.h.reigns[t].log;
    AgreeShorter(log, w.h.reigns[s].log, w.h.reigns[s].committed, |a|);
    AgreeChain(a, w.h.reigns[s].log, log, |a|);
    assert a == log[..|a|] && b == log[..|b|];
    assert if |a| <= |b| then a == b[..|a|] else b == a[..|b|];
  }

  /** No later leader had committed anything when a confirmed read arrived. */
  lemma ConfirmedNotOvertaken(w: World, k: ReadId, q: set<NodeId>, s: Term)
    requires Inv(w) && k in w.h.asked && Quorum(w.config, q) && AllConfirmed(w.h, q, k)
    requires s in w.h.asked[k].committed && Origin(w, k.term, w.h.asked[k], s)
    ensures s <= k.term
  {
    if s > k.term {
      var rec := w.h.asked[k];
      assert ReadOk(w, k);
      var q' :| Quorum(w.config, q') && AllReached(rec.terms, q', s);
      var f := QuorumsMeet(w.config, q, q');
      ConfirmedInTerm(w, f, k);
    }
  }

  /** A node that confirmed a read was in no later term when the read arrived. */
  lemma ConfirmedInTerm(w: World, f: NodeId, k: ReadId)
    requires Inv(w) && k in w.h.asked && ReadAck(w.h, f, k.term) >= k.serial
    ensures f in w.h.asked[k].terms && w.h.asked[k].terms[f] <= k.term
  {
    assert ReadOk(w, k) && ReadAckOk(w, At(f, k.term));
  }

  ghost predicate AllConfirmed(h: History, q: set<NodeId>, k: ReadId) {
    forall f :: f in q ==> ReadAck(h, f, k.term) >= k.serial
  }

  /** A read confirmed by a quorum sees everything that any leader had committed when
      it arrived, provided the answering leader has committed in its own term. */
  lemma ReadsAreFresh(w: World, n: NodeId, k: ReadId, q: set<NodeId>, s: Term)
    requires Inv(w) && n in w.nodes && w.nodes[n].duty == Leading && k.term == w.nodes[n].term
    requires TermAt(w.nodes[n].log, w.nodes[n].commit) == k.term
    requires k in w.h.asked && Quorum(w.config, q) && AllConfirmed(w.h, q, k)
    requires s in w.h.asked[k].committed && w.nodes[n].commit <= |w.nodes[n].log|
    ensures w.h.asked[k].committed[s] <= w.nodes[n].log[..w.nodes[n].commit]
  {
    var t, rec, v := k.term, w.h.asked[k], w.nodes[n];
    assert ReadOk(w, k);
    var c := rec.committed[s];
    if c != [] {
      assert Origin(w, t, rec, s);
      ConfirmedNotOvertaken(w, k, q, s);
      LeaderCompleteness(w, s, t);
      assert |c| <= v.commit && v.log == w.h.reigns[t].log by {
        assert NodeOk(w, n) && ReignOk(w, t);
      }
      AgreeShorter(w.h.reigns[t].log, w.h.reigns[s].log, w.h.reigns[s].committed, |c|);
      AgreeChain(c, w.h.reigns[s].log, v.log, |c|);
      assert c == v.log[..v.commit][..|c|];
    }
  }
}
