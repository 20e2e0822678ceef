/** The safety of the cluster, over all its runs. In every statement the indexes i
    and j name arbitrary moments of the run, in either order. */
module Safety {
  import opened Basics
  import opened Machine
  import opened LogSpec
  import opened Messages
  import opened RaftNode
  import opened Protocol
  import opened ProtocolSteps
  import opened Refinement
  import opened LeaderRefinement
  import opened Cluster
  import opened Origins
  import opened Sessions

  // ---------------------------------------------------- election safety

  lemma LeaderReigns(ws: seq<World>, cs: seq<Cluster>, events: seq<Event>, i: nat, j: nat, a: NodeId)
    requires Explains(ws, cs, events) && i <= j < |cs| && a in cs[i].nodes && cs[i].nodes[a].role.Leader?
    ensures var n := cs[i].nodes[a];
      n.term in ws[i].h.reigns && ws[i].h.reigns[n.term].log == n.log
      && n.term in ws[j].h.reigns && ws[j].h.reigns[n.term].leader == a
      && ReignLe(ws[i].h.reigns[n.term], ws[j].h.reigns[n.term])
  {
    hide Good, Follows, Rep, Inv, NodeOk, LogOk;
    NodeAt(ws, cs, events, i, a);
    LeaderFacts(ws[i], cs[i].nodes[a]);
    WorldsGrow(ws, cs, events, i, j);
  }

  /** At most one node ever leads in a term. */
  lemma ElectionSafety(cs: seq<Cluster>, events: seq<Event>, i: nat, j: nat, a: NodeId, b: NodeId)
    requires Run(cs, events) && i < |cs| && j < |cs| && a in cs[i].nodes && b in cs[j].nodes
    requires cs[i].nodes[a].role.Leader? && cs[j].nodes[b].role.Leader?
    requires cs[i].nodes[a].term == cs[j].nodes[b].term
    ensures a == b
  {
    var ws := Explained(cs, events);
    var k := |cs| - 1;
    LeaderReigns(ws, cs, events, i, k, a);
    LeaderReigns(ws, cs, events, j, k, b);
  }

  // --------------------------------------------------------- log matching

  /** Entries found in the cluster from position `base` on: a node's whole log, or
      what an Append in flight carries. */
  ghost predicate Found(c: Cluster, base: Index, es: seq<Entry>) {
    || (base == 0 && exists a :: a in c.nodes && c.nodes[a].log == es)
    || exists e :: e in c.sent && e.message.Append? && e.message.baseIndex == base && e.message.entries == es
  }

  lemma SentPiece(w: World, e: Envelope)
    requires Inv(w) && MsgOk(w, e) && e.message.Append?
    ensures var m := e.message;
      e.term in w.h.reigns && LogOk(w.h, w.h.reigns[e.term].log)
      && m.baseIndex + |m.entries| <= |w.h.reigns[e.term].log|
      && m.entries == w.h.reigns[e.term].log[m.baseIndex..m.baseIndex + |m.entries|]
  {
    hide Inv, LogOk;
    ReignAt(w, e.term);
  }

  lemma HeldPiece(w: World, n: Node)
    requires Rep(w, n) && NodeOk(w, n.id)
    ensures LogOk(w.h, n.log)
  {
    hide LogOk, Inv;
  }

  /** Whatever is found anywhere is a piece of a well-formed log. */
  lemma PieceOfLog(ws: seq<World>, cs: seq<Cluster>, events: seq<Event>, i: nat, j: nat, base: Index, es: seq<Entry>)
    returns (log: seq<Entry>)
    requires Explains(ws, cs, events) && i <= j < |cs| && Found(cs[i], base, es)
    ensures LogOk(ws[j].h, log) && base + |es| <= |log| && es == log[base..base + |es|]
  {
    hide Good, Follows, Rep, Inv, NodeOk, MsgOk, LogOk;
    WorldsGrow(ws, cs, events, i, j);
    if base == 0 && exists a :: a in cs[i].nodes && cs[i].nodes[a].log == es {
      var a :| a in cs[i].nodes && cs[i].nodes[a].log == es;
      NodeAt(ws, cs, events, i, a);
      HeldPiece(ws[i], cs[i].nodes[a]);
      log := es;
    } else {
      var e :| e in cs[i].sent && e.message.Append? && e.message.baseIndex == base && e.message.entries == es;
      SentAt(ws, cs, events, i, e);
      WorldAt(ws, cs, events, i);
      SentPiece(ws[i], e);
      log := ws[i].h.reigns[e.term].log;
    }
    LogStable(ws[i].h, ws[j].h, log);
  }

  /** One position and one term determine the entry there and all entries before it,
      across all logs and all messages of the run. */
  lemma LogMatching(cs: seq<Cluster>, events: seq<Event>, i: nat, j: nat, b: Index, es: seq<Entry>, b': Index, es': seq<Entry>,
                    at: Index, before: Index)
    requires Run(cs, events) && i < |cs| && j < |cs| && Found(cs[i], b, es) && Found(cs[j], b', es')
    requires b <= at < b + |es| && b' <= at < b' + |es'| && es[at - b].term == es'[at - b'].term
    requires b <= before <= at && b' <= before
    ensures es[before - b] == es'[before - b']
  {
    hide Run, Found, Good, Follows, Inv, LogOk;
    var ws := Explained(cs, events);
    var k := |cs| - 1;
    var log := PieceOfLog(ws, cs, events, i, k, b, es);
    var log' := PieceOfLog(ws, cs, events, j, k, b', es');
    assert es[at - b] == log[at] && es'[at - b'] == log'[at];
    assert es[before - b] == log[before] && es'[before - b'] == log'[before];
    LogsMatch(ws[k], log, log', at);
    AgreeAt(log, log', at + 1, before);
  }

  // ------------------------------------------------- state machine safety

  function CommittedPart(n: Node): seq<Entry> {
    if n.commit <= |n.log| then n.log[..n.commit] else n.log
  }

  /** What a node has committed, some leader has committed. */
  lemma SomeoneCommitted(ws: seq<World>, cs: seq<Cluster>, events: seq<Event>, i: nat, j: nat, a: NodeId) returns (s: Term)
    requires Explains(ws, cs, events) && i <= j < |cs| && a in cs[i].nodes && cs[i].nodes[a].commit != 0
    ensures var log := CommittedPart(cs[i].nodes[a]);
      |log| == cs[i].nodes[a].commit && s <= cs[i].nodes[a].term
      && CommittedBy(ws[i].h, log, |log|, s) && CommittedBy(ws[j].h, log, |log|, s)
  {
    hide Good, Follows, Inv, LogOk, Linked, Replayed;
    NodeAt(ws, cs, events, i, a);
    WorldsGrow(ws, cs, events, i, j);
    var n := cs[i].nodes[a];
    var log := CommittedPart(n);
    var s0: Term :| s0 <= n.term && CommittedBy(ws[i].h, n.log, n.commit, s0);
    s := s0;
    assert log[..|log|] == n.log[..n.commit];
    assert CommittedBy(ws[i].h, log, |log|, s);
    CommittedByStable(ws[i].h, ws[j].h, log, |log|, s);
  }

  /** What any two nodes ever committed are prefixes of one another. */
  lemma CommitsNeverDiverge(cs: seq<Cluster>, events: seq<Event>, i: nat, j: nat, a: NodeId, b: NodeId)
    requires Run(cs, events) && i < |cs| && j < |cs| && a in cs[i].nodes && b in cs[j].nodes
    ensures var p, q := CommittedPart(cs[i].nodes[a]), CommittedPart(cs[j].nodes[b]); p <= q || q <= p
  {
    if cs[i].nodes[a].commit != 0 && cs[j].nodes[b].commit != 0 {
      var ws := Explained(cs, events);
      var k := |cs| - 1;
      var s := SomeoneCommitted(ws, cs, events, i, k, a);
      var t := SomeoneCommitted(ws, cs, events, j, k, b);
      var p, q := CommittedPart(cs[i].nodes[a]), CommittedPart(cs[j].nodes[b]);
      WorldAt(ws, cs, events, k);
      if s <= t { CommittedPrefixes(ws[k], p, s, q, t); } else { CommittedPrefixes(ws[k], q, t, p, s); }
    }
  }

  /** The state machine is always the replay of a committed prefix of the log. */
  lemma MachineIsReplay(cs: seq<Cluster>, events: seq<Event>, i: nat, a: NodeId)
    requires Run(cs, events) && i < |cs| && a in cs[i].nodes
    ensures var n := cs[i].nodes[a];
      Ok(n) && Applied(n.machine) <= n.commit && n.machine == Replay(n.log[..Applied(n.machine)])
  {
    var ws := Explained(cs, events);
    NodeAt(ws, cs, events, i, a);
  }

  /** State machine safety: an index is applied with one and the same entry
      everywhere, and equal progress means equal state. */
  lemma StateMachineSafety(cs: seq<Cluster>, events: seq<Event>, i: nat, j: nat, a: NodeId, b: NodeId, k: Index)
    requires Run(cs, events) && i < |cs| && j < |cs| && a in cs[i].nodes && b in cs[j].nodes
    requires 1 <= k <= Applied(cs[i].nodes[a].machine) && k <= Applied(cs[j].nodes[b].machine)
    ensures k <= |cs[i].nodes[a].log| && k <= |cs[j].nodes[b].log|
    ensures cs[i].nodes[a].log[k - 1] == cs[j].nodes[b].log[k - 1]
    ensures Applied(cs[i].nodes[a].machine) == Applied(cs[j].nodes[b].machine) ==> cs[i].nodes[a].machine == cs[j].nodes[b].machine
  {
    var m, n := cs[i].nodes[a], cs[j].nodes[b];
    MachineIsReplay(cs, events, i, a);
    MachineIsReplay(cs, events, j, b);
    CommitsNeverDiverge(cs, events, i, j, a, b);
    var p, q := CommittedPart(m), CommittedPart(n);
    assert m.log[k - 1] == p[k - 1] && n.log[k - 1] == q[k - 1];
    var c := Applied(m.machine);
    if c == Applied(n.machine) {
      assert m.log[..c] == p[..c] && n.log[..c] == q[..c];
      assert p[..c] == q[..c];
    }
  }

  // --------------------------------------------------- leader completeness

  /** What a node had committed is in the log of every leader of a later term,
      whenever that leader is looked at, and of the leader of its own term from then on. */
  lemma LeadersAreComplete(cs: seq<Cluster>, events: seq<Event>, i: nat, j: nat, a: NodeId, b: NodeId)
    requires Run(cs, events) && i < |cs| && j < |cs| && a in cs[i].nodes && b in cs[j].nodes
    requires cs[j].nodes[b].role.Leader?
    requires cs[j].nodes[b].term > cs[i].nodes[a].term || (cs[j].nodes[b].term == cs[i].nodes[a].term && i <= j)
    ensures CommittedPart(cs[i].nodes[a]) <= cs[j].nodes[b].log
  {
    hide Good, Follows, Inv;
    if cs[i].nodes[a].commit != 0 {
      var ws := Explained(cs, events);
      var k := if i <= j then j else i;
      var t := cs[j].nodes[b].term;
      var p, log := CommittedPart(cs[i].nodes[a]), cs[j].nodes[b].log;
      var s := SomeoneCommitted(ws, cs, events, i, k, a);
      LeaderReigns(ws, cs, events, j, k, b);
      var rs, rt := ws[k].h.reigns[s], ws[k].h.reigns[t];
      WorldAt(ws, cs, events, k);
      LeaderCompleteness(ws[k], s, t);
      AgreeShorter(rt.log, rs.log, rs.committed, |p|);
      AgreeChain(p, rs.log, rt.log, |p|);
      InheritedFirst(ws, cs, events, j, b);
      if k != j { AgreeShorter(log, rt.log, |log|, |p|); }
      assert p == rt.log[..|p|] == log[..|p|];
    }
  }

  lemma InheritedFirst(ws: seq<World>, cs: seq<Cluster>, events: seq<Event>, j: nat, b: NodeId)
    requires Explains(ws, cs, events) && j < |cs| && b in cs[j].nodes && cs[j].nodes[b].role.Leader?
    ensures var n := cs[j].nodes[b]; n.term in ws[j].h.reigns && ws[j].h.reigns[n.term].inherited < |n.log|
  {
    NodeAt(ws, cs, events, j, b);
    LeaderFacts(ws[j], cs[j].nodes[b]);
    ReignAt(ws[j], cs[j].nodes[b].term);
  }

  // ------------------------------------------------------ acknowledgements

  /** What a leader believes of a peer is bounded by its own log, and true of the
      peer's log for as long as the peer is in the leader's term. */
  lemma AcknowledgementsAreSound(cs: seq<Cluster>, events: seq<Event>, i: nat, a: NodeId, p: NodeId)
    requires Run(cs, events) && i < |cs| && a in cs[i].nodes
    requires cs[i].nodes[a].role.Leader? && p in cs[i].nodes[a].role.progress
    ensures p in cs[i].nodes
    ensures var n, m := cs[i].nodes[a], cs[i].nodes[p];
      var match' := n.role.progress[p].matchIndex;
      match' < n.role.progress[p].nextIndex <= |n.log| + 1
      && (m.term == n.term ==> match' <= |m.log| && m.log[..match'] == n.log[..match'])
  {
    hide Good, Follows, Inv, Replayed, Run;
    RunLength(cs, events);
    var ws := Explained(cs, events);
    NodeAt(ws, cs, events, i, a);
    var n := cs[i].nodes[a];
    LeaderFacts(ws[i], n);
    WorldAt(ws, cs, events, i);
    NodeAt(ws, cs, events, i, p);
    var match' := n.role.progress[p].matchIndex;
    if match' != 0 && cs[i].nodes[p].term == n.term {
      AckAt(ws[i], At(p, n.term));
      AgreeShorter(cs[i].nodes[p].log, n.log, Ack(ws[i].h, p, n.term), match');
    }
  }

  // ----------------------------------------------- reads and writes answered

  /** Some node had committed all of `log` by moment i. */
  ghost predicate CommittedByThen(cs: seq<Cluster>, i: nat, log: seq<Entry>) {
    log == [] || exists j: nat, a :: j <= i && j < |cs| && a in cs[j].nodes && log <= CommittedPart(cs[j].nodes[a])
  }

  /** Everything that any node had committed up to moment i is in `log`. */
  ghost predicate Current(cs: seq<Cluster>, i: nat, log: seq<Entry>) {
    forall j: nat, a :: j <= i && j < |cs| && a in cs[j].nodes ==> CommittedPart(cs[j].nodes[a]) <= log
  }

  /** The event is a leader taking in a request in its own term. */
  ghost predicate Takes(c: Cluster, event: Event, id: RequestId, request: Request) {
    && Actor(event) in c.nodes && (event.Deliver? || event.Submit?)
    && var n := c.nodes[Actor(event)];
       n.role.Leader? && Handled(n, event).term == n.term && Handled(n, event).message == ClientRequest(id, request)
  }

  /** What a leader ever committed was committed by some node at some moment. */
  lemma {:induction false} SeenCommitted(ws: seq<World>, cs: seq<Cluster>, events: seq<Event>, i: nat, s: Term)
    requires Explains(ws, cs, events) && i < |cs| && s in ws[i].h.reigns
    ensures CommittedByThen(cs, i, Settled(ws[i].h.reigns[s]))
    decreases i
  {
    hide Good, Inv, Le, Linked, Replayed, NodeOk, Recording;
    if i > 0 {
      var a := Actor(events[i - 1]);
      EventAt(ws, cs, events, i - 1);
      assert Witnessed(ws[i - 1], ws[i], a, s);
      var r := ws[i].h.reigns[s];
      if r.committed != 0 {
        if s in ws[i - 1].h.reigns && ws[i - 1].h.reigns[s].committed == r.committed {
          SeenCommitted(ws, cs, events, i - 1, s);
          WorldAt(ws, cs, events, i - 1);
          SettledKept(ws[i - 1], ws[i], s);
        } else {
          WorldAt(ws, cs, events, i);
          NodeAt(ws, cs, events, i, a);
          assert Settled(r) <= CommittedPart(cs[i].nodes[a]) by {
            AgreeShorter(cs[i].nodes[a].log, r.log, r.committed, r.committed);
            assert cs[i].nodes[a].log[..cs[i].nodes[a].commit][..r.committed] == cs[i].nodes[a].log[..r.committed];
          }
        }
      }
    }
  }

  lemma SettledKept(w: World, w': World, s: Term)
    requires Inv(w) && Le(w, w') && s in w.h.reigns && s in w'.h.reigns && w'.h.reigns[s].committed == w.h.reigns[s].committed
    ensures Settled(w'.h.reigns[s]) == Settled(w.h.reigns[s])
  {
    CommittedIsChosen(w, s);
    assert ReignLe(w.h.reigns[s], w'.h.reigns[s]);
    AgreeShorter(w.h.reigns[s].log, w'.h.reigns[s].log, |w.h.reigns[s].log|, w.h.reigns[s].committed);
  }

  lemma CommittedIsSeen(ws: seq<World>, cs: seq<Cluster>, events: seq<Event>, i: nat, log: seq<Entry>)
    requires Explains(ws, cs, events) && i < |cs| && IsCommitted(ws[i].h, log)
    ensures CommittedByThen(cs, i, log)
  {
    hide Good, Follows, Inv, Le;
    if log != [] {
      var s :| CommittedBy(ws[i].h, log, |log|, s);
      var r := ws[i].h.reigns[s];
      SeenCommitted(ws, cs, events, i, s);
      WorldAt(ws, cs, events, i);
      CommittedIsChosen(ws[i], s);
      assert log == r.log[..|log|] && log <= Settled(r);
      var j: nat, a :| j <= i && j < |cs| && a in cs[j].nodes && Settled(r) <= CommittedPart(cs[j].nodes[a]);
      assert log <= CommittedPart(cs[j].nodes[a]);
    }
  }

  /** When a recorded read was taken in. */
  lemma {:induction false} AskedWhen(ws: seq<World>, cs: seq<Cluster>, events: seq<Event>, i: nat, k: ReadId) returns (a: nat)
    requires Explains(ws, cs, events) && i < |cs| && k in ws[i].h.asked
    ensures a < i && Takes(cs[a], events[a], ws[i].h.asked[k].id, ReadRequest(ws[i].h.asked[k].query))
    ensures ws[i].h.asked[k].committed == map s | s in ws[a].h.reigns :: Settled(ws[a].h.reigns[s])
    decreases i
  {
    hide Good, Inv, Le, NodeOk, Linked, Replayed;
    var n := cs[i - 1].nodes[Actor(events[i - 1])];
    EventAt(ws, cs, events, i - 1);
    if k in ws[i - 1].h.asked {
      a := AskedWhen(ws, cs, events, i - 1, k);
    } else {
      a := i - 1;
      NodeAt(ws, cs, events, i - 1, Actor(events[i - 1]));
    }
  }

  /** When a recorded write was put in the log. */
  lemma {:induction false} WroteWhen(ws: seq<World>, cs: seq<Cluster>, events: seq<Event>, i: nat, k: Slot)
    returns (a: nat, request: Request)
    requires Explains(ws, cs, events) && i < |cs| && k in ws[i].h.wrote
    ensures a < i && Takes(cs[a], events[a], ws[i].h.wrote[k].id, request)
    ensures (request.WriteRequest? || request.SessionRequest?) && ws[i].h.wrote[k].command == CommandOf(request)
    ensures var n := cs[a].nodes[Actor(events[a])]; k == Slot(n.term, |n.log| + 1)
    decreases i
  {
    hide Good, Inv, Le, NodeOk, Linked, Replayed;
    var n := cs[i - 1].nodes[Actor(events[i - 1])];
    EventAt(ws, cs, events, i - 1);
    if k in ws[i - 1].h.wrote {
      a, request := WroteWhen(ws, cs, events, i - 1, k);
    } else {
      a := i - 1;
      request := Handled(n, events[i - 1]).message.request;
    }
  }

  /** A log that contains what every leader had committed contains what every node had. */
  lemma CurrentFromReigns(ws: seq<World>, cs: seq<Cluster>, events: seq<Event>, i: nat, log: seq<Entry>)
    requires Explains(ws, cs, events) && i < |cs|
    requires forall s :: s in ws[i].h.reigns ==> Settled(ws[i].h.reigns[s]) <= log
    ensures Current(cs, i, log)
  {
    hide Good, Follows, Inv, Le;
    forall j: nat, a | j <= i && j < |cs| && a in cs[j].nodes ensures CommittedPart(cs[j].nodes[a]) <= log {
      if cs[j].nodes[a].commit != 0 {
        var s := SomeoneCommitted(ws, cs, events, j, i, a);
        var p, r := CommittedPart(cs[j].nodes[a]), ws[i].h.reigns[s];
        assert p == r.log[..|p|] && p <= Settled(r);
      }
    }
  }

  /** The answer is the query's value on a log that held everything committed
      anywhere by the time a leader took the read in, and nothing that was not
      committed by moment i. */
  ghost predicate ReadServed(cs: seq<Cluster>, events: seq<Event>, i: nat, id: RequestId, answer: ReadReply,
                             a: nat, query: ReadCommand, log: seq<Entry>)
    requires |cs| == |events| + 1 && i < |cs|
  {
    && a < i && Takes(cs[a], events[a], id, ReadRequest(query))
    && answer == Machine.Read(Replay(log), query) && ReadsAs(log, query, answer)
    && Current(cs, a, log) && CommittedByThen(cs, i, log)
  }

  /** Linearizable reads: every answer to a read is served so by the time it is sent. */
  lemma ReadsAreLinearizable(cs: seq<Cluster>, events: seq<Event>, i: nat, e: Envelope)
    requires Run(cs, events) && i < |cs| && e in cs[i].sent
    requires e.message.ClientResponse? && e.message.response.ReadResult?
    ensures exists a, query, log :: ReadServed(cs, events, i, e.message.id, e.message.response.answer, a, query, log)
  {
    hide Good, Follows, Inv, Le, ReadServed, Fresh;
    var ws := Explained(cs, events);
    SentAt(ws, cs, events, i, e);
    var k, log :| Fresh(ws[i], k, log, e.message.id, e.message.response.answer);
    FreshMeans(ws[i], k, log, e.message.id, e.message.response.answer);
    CommittedIsSeen(ws, cs, events, i, log);
    CommittedIndexed(cs, events, i, log);
    ReadWasServed(ws, cs, events, i, k, log, e.message.id, e.message.response.answer);
  }

  lemma FreshMeans(w: World, k: ReadId, log: seq<Entry>, id: RequestId, answer: ReadReply)
    requires Fresh(w, k, log, id, answer)
    ensures IsCommitted(w.h, log)
  {
    hide IsCommitted;
  }

  lemma ReadWasServed(ws: seq<World>, cs: seq<Cluster>, events: seq<Event>, i: nat, k: ReadId, log: seq<Entry>, id: RequestId, answer: ReadReply)
    requires Explains(ws, cs, events) && i < |cs| && Fresh(ws[i], k, log, id, answer) && Indexed(log) && CommittedByThen(cs, i, log)
    ensures exists a, query, log :: ReadServed(cs, events, i, id, answer, a, query, log)
  {
    hide Good, Follows;
    var a := AskedWhen(ws, cs, events, i, k);
    hide Takes;
    forall s | s in ws[a].h.reigns ensures Settled(ws[a].h.reigns[s]) <= log {
      assert s in ws[i].h.asked[k].committed;
    }
    CurrentFromReigns(ws, cs, events, a, log);
    ReadsLastEffect(log, ws[i].h.asked[k].query);
    hide ReadsAs, Current, CommittedByThen;
    assert ReadServed(cs, events, i, id, answer, a, ws[i].h.asked[k].query, log);
  }

  /** The entry has exactly the write that was requested, in its session if it has one. */
  predicate Carries(entry: Entry, request: Request) {
    entry.command.Some?
    && match request
       case WriteRequest(put) => entry.command.value.Plain? && entry.command.value.put == put
       case SessionRequest(client, serial, put) => FromClient(entry, client) && SerialOf(entry) == serial && entry.command.value.put == put
       case _ => false
  }

  lemma CommandsCarry(entry: Entry, request: Request)
    requires request.WriteRequest? || request.SessionRequest?
    ensures Carries(entry, request) <==> entry.command == Some(CommandOf(request))
  {
  }

  lemma PrefixIndexed(log: seq<Entry>, longer: seq<Entry>)
    requires log <= longer && Indexed(longer)
    ensures Indexed(log)
  {
    assert forall k :: 0 <= k < |log| ==> log[k] == longer[k];
  }

  /** What was committed is numbered from 1. */
  lemma CommittedIndexed(cs: seq<Cluster>, events: seq<Event>, i: nat, log: seq<Entry>)
    requires Run(cs, events) && i < |cs| && CommittedByThen(cs, i, log)
    ensures Indexed(log)
  {
    hide Run;
    if log != [] {
      var j: nat, a :| j <= i && j < |cs| && a in cs[j].nodes && log <= CommittedPart(cs[j].nodes[a]);
      MachineIsReplay(cs, events, j, a);
      PrefixIndexed(log, cs[j].nodes[a].log);
    }
  }

  /** The reply is what the requested write, put where a leader had put it, gave on top
      of the committed log before it. */
  ghost predicate WriteServed(cs: seq<Cluster>, events: seq<Event>, i: nat, id: RequestId, reply: Reply,
                              a: nat, request: Request, log: seq<Entry>)
    requires |cs| == |events| + 1 && i < |cs|
  {
    && a < i && Takes(cs[a], events[a], id, request) && (request.WriteRequest? || request.SessionRequest?)
    && (var n := cs[a].nodes[Actor(events[a])];
        0 < |log| == |n.log| + 1 && log[|log| - 1].term == n.term && Carries(log[|log| - 1], request))
    && reply == Apply(Replay(log[..|log| - 1]), log[|log| - 1]).1 && RepliesAs(log[..|log| - 1], log[|log| - 1], reply)
    && CommittedByThen(cs, i, log)
  }

  /** Every answer to a write is the result of that very request, once committed. */
  lemma WritesAreExecuted(cs: seq<Cluster>, events: seq<Event>, i: nat, e: Envelope)
    requires Run(cs, events) && i < |cs| && e in cs[i].sent
    requires e.message.ClientResponse? && e.message.response.WriteResult?
    ensures exists a, request, log :: WriteServed(cs, events, i, e.message.id, e.message.response.reply, a, request, log)
  {
    hide Good, Inv, Le, Follows, WriteServed, Executed;
    var ws := Explained(cs, events);
    SentAt(ws, cs, events, i, e);
    var k, log :| Executed(ws[i], k, log, e.message.id, e.message.response.reply);
    ExecutedMeans(ws[i], k, log, e.message.id, e.message.response.reply);
    CommittedIsSeen(ws, cs, events, i, log);
    CommittedIndexed(cs, events, i, log);
    WriteWasServed(ws, cs, events, i, k, log, e.message.id, e.message.response.reply);
  }

  lemma ExecutedMeans(w: World, k: Slot, log: seq<Entry>, id: RequestId, reply: Reply)
    requires Executed(w, k, log, id, reply)
    ensures IsCommitted(w.h, log)
  {
    hide IsCommitted;
  }

  lemma WriteWasServed(ws: seq<World>, cs: seq<Cluster>, events: seq<Event>, i: nat, k: Slot, log: seq<Entry>, id: RequestId, reply: Reply)
    requires Explains(ws, cs, events) && i < |cs| && Executed(ws[i], k, log, id, reply) && Indexed(log) && CommittedByThen(cs, i, log)
    ensures exists a, request, log :: WriteServed(cs, events, i, id, reply, a, request, log)
  {
    hide Good, Follows, Inv, CommittedByThen, Takes, RepliesAs, Replay, IsCommitted;
    var a, request := WroteWhen(ws, cs, events, i, k);
    CommandsCarry(log[|log| - 1], request);
    PrefixIndexed(log[..|log| - 1], log);
    Answers(log[..|log| - 1], log[|log| - 1]);
    assert WriteServed(cs, events, i, id, reply, a, request, log);
  }

  // ------------------------------------------------------ real-time order

  /** The log that an answer was given on; for a write, up to and with the write. */
  ghost predicate Served(cs: seq<Cluster>, events: seq<Event>, i: nat, e: Envelope, a: nat, log: seq<Entry>)
    requires |cs| == |events| + 1 && i < |cs|
  {
    && e.message.ClientResponse?
    && match e.message.response
       case ReadResult(answer) => exists query :: ReadServed(cs, events, i, e.message.id, answer, a, query, log)
       case WriteResult(reply) => exists request :: WriteServed(cs, events, i, e.message.id, reply, a, request, log)
       case _ => false
  }

  predicate Result(m: Message) {
    m.ClientResponse? && (m.response.ReadResult? || m.response.WriteResult?)
  }

  lemma ResultsAreServed(cs: seq<Cluster>, events: seq<Event>, i: nat, e: Envelope) returns (a: nat, log: seq<Entry>)
    requires Run(cs, events) && i < |cs| && e in cs[i].sent && Result(e.message)
    ensures Served(cs, events, i, e, a, log)
  {
    hide ReadServed, WriteServed;
    if e.message.response.ReadResult? {
      ReadsAreLinearizable(cs, events, i, e);
      var a0, query, log0 :| ReadServed(cs, events, i, e.message.id, e.message.response.answer, a0, query, log0);
      a, log := a0, log0;
    } else {
      WritesAreExecuted(cs, events, i, e);
      var a0, request, log0 :| WriteServed(cs, events, i, e.message.id, e.message.response.reply, a0, request, log0);
      a, log := a0, log0;
    }
  }

  /** An answer is given on a committed log, for a request that some leader took in. */
  lemma ServedMeans(cs: seq<Cluster>, events: seq<Event>, i: nat, e: Envelope, a: nat, log: seq<Entry>)
    requires |cs| == |events| + 1 && i < |cs| && Served(cs, events, i, e, a, log)
    ensures a < i && CommittedByThen(cs, i, log) && exists request :: Takes(cs[a], events[a], e.message.id, request)
    ensures e.message.response.ReadResult? ==> Current(cs, a, log)
    ensures e.message.response.WriteResult? ==>
      var n := cs[a].nodes[Actor(events[a])]; n.role.Leader? && 0 < |log| == |n.log| + 1 && log[|log| - 1].term == n.term
  {
  }

  /** What a leader's next entry is cannot have been committed before. */
  lemma NextEntryIsNew(cs: seq<Cluster>, events: seq<Event>, i: nat, a: nat, id: NodeId, log: seq<Entry>)
    requires Run(cs, events) && i <= a < |cs| && CommittedByThen(cs, i, log)
    requires id in cs[a].nodes && cs[a].nodes[id].role.Leader? && |cs[a].nodes[id].log| < |log|
    ensures log[|cs[a].nodes[id].log|].term != cs[a].nodes[id].term
  {
    hide Follows, Good, Inv, Linked, Replayed, Ok, ViewLe;
    var ws := Explained(cs, events);
    var n := cs[a].nodes[id];
    var j: nat, b :| j <= i && j < |cs| && b in cs[j].nodes && log <= CommittedPart(cs[j].nodes[b]);
    NodeAt(ws, cs, events, j, b);
    var k := |n.log|;
    assert EntryOk(ws[j].h, cs[j].nodes[b].log, k) && cs[j].nodes[b].log[k] == log[k];
    LeaderReigns(ws, cs, events, a, a, id);
    WorldsGrow(ws, cs, events, j, a);
    if n.term in ws[j].h.reigns { assert ReignLe(ws[j].h.reigns[n.term], ws[a].h.reigns[n.term]); }
  }

  lemma CommittedCompare(cs: seq<Cluster>, events: seq<Event>, i: nat, p: seq<Entry>, j: nat, q: seq<Entry>)
    requires Run(cs, events) && i < |cs| && j < |cs| && CommittedByThen(cs, i, p) && CommittedByThen(cs, j, q)
    ensures p <= q || q <= p
  {
    if p != [] && q != [] {
      var k: nat, a :| k <= i && k < |cs| && a in cs[k].nodes && p <= CommittedPart(cs[k].nodes[a]);
      var l: nat, b :| l <= j && l < |cs| && b in cs[l].nodes && q <= CommittedPart(cs[l].nodes[b]);
      CommitsNeverDiverge(cs, events, k, l, a, b);
    }
  }

  /** Real-time order: once a read or write has been answered, every read or write whose
      request is submitted after that is answered on a log that extends the one of the
      first answer, whichever logs explain the two. Completed writes are seen, and nothing
      read is unread. */
  lemma RealTimeOrder(cs: seq<Cluster>, events: seq<Event>, i: nat, e1: Envelope, j: nat, e2: Envelope)
    requires Run(cs, events) && i < |cs| && j < |cs|
    requires e1 in cs[i].sent && Result(e1.message) && e2 in cs[j].sent && Result(e2.message)
    requires forall k :: 0 <= k < i && k < |events| && events[k].Submit? ==> events[k].id != e2.message.id
    ensures (exists a, log :: Served(cs, events, i, e1, a, log)) && exists a, log :: Served(cs, events, j, e2, a, log)
    ensures forall a, log, a', log' :: Served(cs, events, i, e1, a, log) && Served(cs, events, j, e2, a', log') ==> i <= a' && log <= log'
  {
    hide Served, Run;
    RunLength(cs, events);
    var a1, log1 := ResultsAreServed(cs, events, i, e1);
    var a2, log2 := ResultsAreServed(cs, events, j, e2);
    forall a, log, a', log' | Served(cs, events, i, e1, a, log) && Served(cs, events, j, e2, a', log')
      ensures i <= a' && log <= log'
    {
      LaterServed(cs, events, i, e1, a, log, j, e2, a', log');
    }
  }

  lemma LaterServed(cs: seq<Cluster>, events: seq<Event>, i: nat, e1: Envelope, a: nat, log: seq<Entry>,
                    j: nat, e2: Envelope, a': nat, log': seq<Entry>)
    requires Run(cs, events) && i < |cs| && j < |cs| && |cs| == |events| + 1 && Result(e2.message)
    requires Served(cs, events, i, e1, a, log) && Served(cs, events, j, e2, a', log')
    requires forall k :: 0 <= k < i && k < |events| && events[k].Submit? ==> events[k].id != e2.message.id
    ensures i <= a' && log <= log'
  {
    hide Served, CommittedByThen, Current, Run;
    ServedMeans(cs, events, i, e1, a, log);
    ServedMeans(cs, events, j, e2, a', log');
    NotBefore(cs, events, i, a', e2.message.id);
    LaterExtends(cs, events, i, log, j, e2, a', log');
  }

  lemma RunLength(cs: seq<Cluster>, events: seq<Event>)
    requires Run(cs, events)
    ensures |cs| == |events| + 1
  {
  }

  /** A request that was not submitted before a moment was not taken in before it. */
  lemma NotBefore(cs: seq<Cluster>, events: seq<Event>, i: nat, a: nat, id: RequestId)
    requires Run(cs, events) && a < |events| && exists request :: Takes(cs[a], events[a], id, request)
    requires forall k :: 0 <= k < i && k < |events| && events[k].Submit? ==> events[k].id != id
    ensures i <= a
  {
    var request :| Takes(cs[a], events[a], id, request);
    HandledWasSubmitted(cs, events, a, id, request);
  }

  lemma LaterExtends(cs: seq<Cluster>, events: seq<Event>, i: nat, log: seq<Entry>, j: nat, e: Envelope, a: nat, log': seq<Entry>)
    requires Run(cs, events) && i <= a < j < |cs| && CommittedByThen(cs, i, log)
    requires Served(cs, events, j, e, a, log')
    ensures log <= log'
  {
    hide Served, CommittedByThen, Current, Run;
    RunLength(cs, events);
    TakerIsNode(cs, events, j, e, a, log');
    ServedMeans(cs, events, j, e, a, log');
    if e.message.response.ReadResult? {
      LaterSeesEarlier(cs, i, a, log, log');
    } else {
      CommittedCompare(cs, events, i, log, j, log');
      if |log| >= |log'| {
        NextEntryIsNew(cs, events, i, a, Actor(events[a]), log);
      }
    }
  }

  lemma TakerIsNode(cs: seq<Cluster>, events: seq<Event>, j: nat, e: Envelope, a: nat, log: seq<Entry>)
    requires |cs| == |events| + 1 && j < |cs| && Served(cs, events, j, e, a, log)
    ensures a < |events| && Actor(events[a]) in cs[a].nodes && e.message.ClientResponse? && Result(e.message)
  {
  }

  // ---------------------------------------------- sessions, end to end

  /** Whatever was submitted under this id is a write of this client with this serial
      number. */
  predicate OnlyFor(events: seq<Event>, id: RequestId, client: ClientId, serial: nat) {
    forall k :: 0 <= k < |events| && events[k].Submit? && events[k].id == id ==>
      events[k].request.SessionRequest? && events[k].request.client == client && events[k].request.serial == serial
  }

  /** Entry x of a committed log is the client's with this serial number, takes effect,
      and is what the reply names. */
  ghost predicate RanAt(cs: seq<Cluster>, i: nat, client: ClientId, serial: nat, reply: Reply, log: seq<Entry>, x: nat) {
    && x < |log| && CommittedByThen(cs, i, log) && reply == PutAt(x + 1)
    && FromClient(log[x], client) && SerialOf(log[x]) == serial && TakesEffect(log[..x], log[x])
  }

  /** A write with a session that is answered with an index took effect there. */
  lemma SessionRan(cs: seq<Cluster>, events: seq<Event>, i: nat, e: Envelope, client: ClientId, serial: nat)
    returns (log: seq<Entry>, x: nat)
    requires Run(cs, events) && i < |cs| && e in cs[i].sent
    requires e.message.ClientResponse? && e.message.response.WriteResult? && e.message.response.reply.PutAt?
    requires OnlyFor(events, e.message.id, client, serial)
    ensures RanAt(cs, i, client, serial, e.message.response.reply, log, x)
  {
    hide Run, WriteServed, CommittedByThen, TakesEffect, RepliesAs, Takes;
    RunLength(cs, events);
    WritesAreExecuted(cs, events, i, e);
    var a, request, log0 :| WriteServed(cs, events, i, e.message.id, e.message.response.reply, a, request, log0);
    log := log0;
    WriteMeans(cs, events, i, e.message.id, e.message.response.reply, a, request, log);
    TakenMeans(cs, events, a, e.message.id, request);
    HandledWasSubmitted(cs, events, a, e.message.id, request);
    CommittedIndexed(cs, events, i, log);
    PrefixIndexed(log[..|log| - 1], log);
    x := RepliesOnEffect(log[..|log| - 1], log[|log| - 1], e.message.response.reply, client);
    assert log[..|log| - 1] + [log[|log| - 1]] == log;
  }

  lemma WriteMeans(cs: seq<Cluster>, events: seq<Event>, i: nat, id: RequestId, reply: Reply, a: nat, request: Request, log: seq<Entry>)
    requires |cs| == |events| + 1 && i < |cs| && WriteServed(cs, events, i, id, reply, a, request, log)
    ensures a < i && Takes(cs[a], events[a], id, request) && CommittedByThen(cs, i, log)
    ensures log != [] && Carries(log[|log| - 1], request) && RepliesAs(log[..|log| - 1], log[|log| - 1], reply)
  {
  }

  lemma TakenMeans(cs: seq<Cluster>, events: seq<Event>, a: nat, id: RequestId, request: Request)
    requires a < |cs| && a < |events| && Takes(cs[a], events[a], id, request)
    ensures (events[a].Deliver? || events[a].Submit?) && Actor(events[a]) in cs[a].nodes
    ensures Handled(cs[a].nodes[Actor(events[a])], events[a]).message == ClientRequest(id, request)
  {
  }

  /** Exactly once, for clients: however often a write with a session is sent, to whatever
      nodes and under whatever ids, all answers that carry an index carry the same, and the
      entry there is the only one of that client and serial number that ever takes effect. */
  lemma SessionsRunOnce(cs: seq<Cluster>, events: seq<Event>, i: nat, e1: Envelope, j: nat, e2: Envelope, client: ClientId, serial: nat)
    requires Run(cs, events) && i < |cs| && j < |cs| && e1 in cs[i].sent && e2 in cs[j].sent
    requires e1.message.ClientResponse? && e1.message.response.WriteResult? && e1.message.response.reply.PutAt?
    requires e2.message.ClientResponse? && e2.message.response.WriteResult? && e2.message.response.reply.PutAt?
    requires OnlyFor(events, e1.message.id, client, serial) && OnlyFor(events, e2.message.id, client, serial)
    ensures e1.message.response.reply == e2.message.response.reply
    ensures exists log, x :: RanAt(cs, i, client, serial, e1.message.response.reply, log, x)
  {
    hide Run, RanAt;
    var p, x := SessionRan(cs, events, i, e1, client, serial);
    var q, y := SessionRan(cs, events, j, e2, client, serial);
    RanOnce(cs, events, i, p, x, j, q, y, client, serial, e1.message.response.reply, e2.message.response.reply);
  }

  /** Of all entries committed anywhere, at any two moments, one at most of a client and
      serial number takes effect. */
  lemma RanOnce(cs: seq<Cluster>, events: seq<Event>, i: nat, p: seq<Entry>, x: nat, j: nat, q: seq<Entry>, y: nat,
                client: ClientId, serial: nat, reply: Reply, reply': Reply)
    requires Run(cs, events) && i < |cs| && j < |cs|
    requires RanAt(cs, i, client, serial, reply, p, x) && RanAt(cs, j, client, serial, reply', q, y)
    ensures x == y && p[x] == q[y] && reply == reply'
  {
    hide Run, CommittedByThen, TakesEffect;
    CommittedCompare(cs, events, i, p, j, q);
    var l := if p <= q then q else p;
    assert l[..x] == p[..x] && l[..y] == q[..y] && l[x] == p[x] && l[y] == q[y];
    OneTakesEffect(l, client, x, y);
  }

  /** A current log contains what was committed before. */
  lemma LaterSeesEarlier(cs: seq<Cluster>, i: nat, a: nat, earlier: seq<Entry>, later: seq<Entry>)
    requires CommittedByThen(cs, i, earlier) && i <= a && Current(cs, a, later)
    ensures earlier <= later
  {
    if earlier != [] {
      var j: nat, m :| j <= i && j < |cs| && m in cs[j].nodes && earlier <= CommittedPart(cs[j].nodes[m]);
      assert CommittedPart(cs[j].nodes[m]) <= later;
    }
  }

  /** What was committed at one moment is consistent with what is committed at any other. */
  lemma CommittedStays(cs: seq<Cluster>, events: seq<Event>, i: nat, log: seq<Entry>, j: nat, b: NodeId)
    requires Run(cs, events) && i < |cs| && CommittedByThen(cs, i, log) && j < |cs| && b in cs[j].nodes
    ensures log <= CommittedPart(cs[j].nodes[b]) || CommittedPart(cs[j].nodes[b]) <= log
  {
    if log != [] {
      var k: nat, a :| k <= i && k < |cs| && a in cs[k].nodes && log <= CommittedPart(cs[k].nodes[a]);
      CommitsNeverDiverge(cs, events, k, j, a, b);
    }
  }
}
