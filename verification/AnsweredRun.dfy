/** What runs there are, and one in which clients get what they ask for
    (src/raft/node.rs:456-490, 1770-1824): a single node starts, a put is submitted and
    answered, and a read of its key is answered with the value. */
module AnsweredRun {
  import opened Basics
  import opened Configuration
  import opened Machine
  import opened LogSpec
  import opened Messages
  import opened RaftNode
  import opened Refinement
  import opened Cluster
  import opened Elections
  import opened Leading
  import opened Availability
  import opened LateAnswers
  import Protocol
  import Serving

  // ------------------------------------------------ what runs there are

  /** The cluster after one of its nodes has acted. */
  function Acted(c: Cluster, a: NodeId, r: Outcome): Cluster {
    c.(nodes := c.nodes[a := r.node], sent := c.sent + set e | e in r.out)
  }

  lemma ReachedOk(c: Cluster, a: NodeId)
    requires Reached(c) && a in c.nodes
    ensures Ok(c.nodes[a]) && c.nodes[a].id == a
  {
    hide Good, Follows, Ok, Linked;
    var cs, events :| Run(cs, events) && cs[|events|] == c;
    var ws := Explained(cs, events);
    NodeAt(ws, cs, events, |events|, a);
  }

  /** Runs leave nothing out: any message ever sent may come next, any request of any client
      but for a change of the voters, a tick anywhere, and a restart of any node with any
      commit index up to the one it had. */
  lemma AnyEventMayFollow(c: Cluster, a: NodeId, e: Envelope, id: RequestId, request: Request, commit: Index, opts: Options, timeout: Ticks)
    requires Reached(c) && a in c.nodes
    ensures var n := c.nodes[a];
      && Ok(n)
      && (e in c.sent && e.to == a && e.from != a ==> Reached(Acted(c, a, Step(n, e, timeout))))
      && (!request.ChangeMembership? ==> Reached(Acted(c, a, Step(n, Envelope(a, n.term, a, ClientRequest(id, request)), timeout))))
      && Reached(Acted(c, a, Tick(n, timeout)))
      && (commit <= n.commit && opts.maxAppendEntries >= 1 ==>
            Reached(Acted(c, a, Start(a, c.config.voters - {a}, n.term, n.vote, n.log, commit, opts, timeout))))
  {
    hide Reached, Ok, Step, Tick, Start;
    ReachedOk(c, a);
    if e in c.sent && e.to == a && e.from != a { Then(c, Deliver(e, timeout)); }
    if !request.ChangeMembership? { Then(c, Submit(a, id, request, timeout)); }
    Then(c, Expire(a, timeout));
    if commit <= c.nodes[a].commit && opts.maxAppendEntries >= 1 { Then(c, Restart(a, commit, opts, timeout)); }
  }

  // ----------------------------------------------------------- the run

  const Lone := Membership({1})

  function Blanked(): Node {
    Node(1, MembershipState(Simple(Lone), false), 0, None, [], 0, EmptyState, Settings, Halted)
  }

  function Unstarted(): Cluster {
    Cluster(Lone, map[1 := Blanked()], {})
  }

  lemma UnstartedReached()
    ensures Reached(Unstarted())
  {
    var events: seq<Event> := [];
    assert Run([Unstarted()], events);
    assert [Unstarted()][|events|] == Unstarted();
  }

  /** The node leads in term 1, and reads can be answered. */
  predicate Serving1(n: Node) {
    n.role.Leader? && n.id == 1 && n.term == 1 && Readable(n) && Applied(n.machine) == n.commit
  }

  /** Of every state of a run: what the node keeps. */
  lemma ReachedMeans(c: Cluster)
    requires Reached(c) && c.config == Lone && 1 in c.nodes
    ensures var n := c.nodes[1];
      && Ok(n) && n.id == 1 && n.membership.active == Simple(Lone) && NoChanges(n.log) && n.opts.maxAppendEntries >= 1
      && n.machine == Replay(n.log[..Applied(n.machine)])
  {
    hide Good, Follows, Ok, Linked;
    var cs, events :| Run(cs, events) && cs[|events|] == c;
    var ws := Explained(cs, events);
    NodeAt(ws, cs, events, |events|, 1);
    assert Good(cs[|events|], ws[|events|]);
    ConfigKept(ws, cs, events, |events|);
  }

  lemma ConfigKept(ws: seq<Protocol.World>, cs: seq<Cluster>, events: seq<Event>, i: nat)
    requires Explains(ws, cs, events) && i < |cs|
    ensures ws[i].config == cs[i].config
  {
    assert Good(cs[i], ws[i]);
    hide Rep, MsgOk;
  }

  lemma Begins() returns (c: Cluster)
    ensures Reached(c) && c.config == Lone && 1 in c.nodes && Serving1(c.nodes[1])
  {
    hide Reached, Start;
    var event := Restart(1, 0, Settings, 10);
    UnstartedReached();
    Then(Unstarted(), event);
    c := Do(Unstarted(), event);
    assert Lone.voters - {1} == {};
    assert {1} + {} == Lone.voters;
    StartMeans(1, {}, 0, None, [], 0, Settings, 10);
    assert c.nodes[1] == Start(1, {}, 0, None, [], 0, Settings, 10).node;
    ReachedMeans(c);
    assert c.nodes[1].log[0] == Entry(1, 1, None, None);
  }

  function Asking(id: RequestId, request: Request): Event {
    Submit(1, id, request, 10)
  }

  /** The put is answered with its index, and is the last thing the state machine has seen. */
  lemma Puts(c: Cluster, id: RequestId, put: Put) returns (c': Cluster, index: Index)
    requires Reached(c) && c.config == Lone && 1 in c.nodes && Serving1(c.nodes[1])
    ensures Reached(c') && c'.config == Lone && 1 in c'.nodes && Serving1(c'.nodes[1]) && c.sent <= c'.sent
    ensures Envelope(1, 1, 1, ClientResponse(id, WriteResult(PutAt(index)))) in c'.sent
    ensures put.key in c'.nodes[1].machine.kv.data && c'.nodes[1].machine.kv.data[put.key] == put.value
  {
    hide Reached, Ok, Step;
    ReachedMeans(c);
    var n, event := c.nodes[1], Asking(id, WriteRequest(put));
    var e := Handled(n, event);
    Then(c, event);
    c' := Do(c, event);
    ReachedMeans(c');
    AloneWrites(n, e, 10);
    index := |n.log| + 1;
    var entry := Entry(index, 1, Some(Plain(put)), None);
    var log := n.log + [entry];
    assert c'.nodes[1].log[..|log|] == log;
    assert log[..|log| - 1] == n.log;
    assert Replay(log) == Apply(Replay(n.log), entry).0;
    assert c'.nodes[1].log[index - 1] == entry;
    assert Serving.ReplyAt(n, log, index) == PutAt(index);
    var answer := Envelope(1, 1, 1, ClientResponse(id, WriteResult(PutAt(index))));
    assert answer in Step(n, e, 10).out;
  }

  /** A write is answered, and a read after it is answered with what was written. */
  lemma AnsweredInARun(put: Put) returns (c: Cluster, index: Index)
    ensures Reached(c)
    ensures Envelope(1, 1, 1, ClientResponse(1, WriteResult(PutAt(index)))) in c.sent
    ensures Envelope(1, 1, 1, ClientResponse(2, ReadResult(Found(Some(put.value))))) in c.sent
  {
    hide Reached, Ok, Step, Serving1;
    var c0 := Begins();
    var c1, i := Puts(c0, 1, put);
    index := i;
    var event := Asking(2, ReadRequest(Get(put.key)));
    ReachedMeans(c1);
    Gets(c1.nodes[1], 2, put);
    Then(c1, event);
    c := Do(c1, event);
  }

  lemma Gets(n: Node, id: RequestId, put: Put)
    requires Ok(n) && Serving1(n) && n.membership.active == Simple(Lone)
    requires put.key in n.machine.kv.data && n.machine.kv.data[put.key] == put.value
    ensures Envelope(1, 1, 1, ClientResponse(id, ReadResult(Found(Some(put.value)))))
      in Step(n, Handled(n, Asking(id, ReadRequest(Get(put.key)))), 10).out
  {
    hide Ok, Step;
    AloneReads(n, Handled(n, Asking(id, ReadRequest(Get(put.key)))), 10);
  }
}
