/** A cluster of nodes with one fixed configuration on a network that may lose,
    repeat and reorder messages, and with nodes that crash and restart. A run is
    any sequence of such events; the safety of Raft is stated over all runs. */
module Cluster {
  import opened Basics
  import opened Configuration
  import opened Machine
  import opened LogSpec
  import opened Messages
  import opened RaftNode
  import opened Protocol
  import opened ProtocolSteps
  import opened Refinement
  import opened LeaderRefinement

  /** `sent` holds every message ever sent: a message may be delivered at any later
      time, any number of times, or never. */
  datatype Cluster = Cluster(config: Membership, nodes: map<NodeId, Node>, sent: set<Envelope>)

  datatype Event =
    | Deliver(envelope: Envelope, timeout: Ticks)
    | Submit(node: NodeId, id: RequestId, request: Request, timeout: Ticks)
    | Expire(node: NodeId, timeout: Ticks)
    | Restart(node: NodeId, commit: Index, opts: Options, timeout: Ticks)

  function Actor(event: Event): NodeId {
    match event
    case Deliver(e, _) => e.to
    case Submit(n, _, _, _) => n
    case Expire(n, _) => n
    case Restart(n, _, _, _) => n
  }

  /** Envelopes a node addresses to itself are answers for its own clients; they
      leave the cluster. A restart may find an earlier commit index on disk. */
  predicate Enabled(c: Cluster, event: Event) {
    && Actor(event) in c.nodes
    && match event
       case Deliver(e, _) => e in c.sent && e.from != e.to
       case Submit(_, _, request, _) => !request.ChangeMembership?
       case Expire(_, _) => true
       case Restart(n, commit, opts, _) => commit <= c.nodes[n].commit && opts.maxAppendEntries >= 1
  }

  /** The message a node handles on an event, if it is one. A client's request
      reaches its node in the node's own name and term. */
  function Handled(n: Node, event: Event): Envelope
    requires event.Deliver? || event.Submit?
  {
    match event
    case Deliver(e, _) => e
    case Submit(_, id, request, _) => Envelope(n.id, n.term, n.id, ClientRequest(id, request))
  }

  function React(config: Membership, n: Node, event: Event): Outcome
    requires Ok(n) && (event.Restart? ==> event.commit <= n.commit)
  {
    match event
    case Deliver(_, timeout) => Step(n, Handled(n, event), timeout)
    case Submit(_, _, _, timeout) => Step(n, Handled(n, event), timeout)
    case Expire(_, timeout) => Tick(n, timeout)
    case Restart(_, commit, opts, timeout) =>
      Start(n.id, config.voters - {n.id}, n.term, n.vote, n.log, commit, opts, timeout)
  }

  predicate Next(c: Cluster, event: Event, c': Cluster) {
    && Enabled(c, event)
    && var n := c.nodes[Actor(event)];
       Ok(n)
       && var r := React(c.config, n, event);
          c' == Cluster(c.config, c.nodes[Actor(event) := r.node], c.sent + set e | e in r.out)
  }

  /** A node that has never been started. */
  predicate Blank(config: Membership, id: NodeId, n: Node) {
    && n == Node(id, MembershipState(Simple(config), false), 0, None, [], 0, EmptyState, n.opts, Halted)
    && n.opts.maxAppendEntries >= 1
  }

  predicate Init(c: Cluster) {
    && c.nodes.Keys == c.config.voters
    && (forall id :: id in c.nodes ==> Blank(c.config, id, c.nodes[id]))
    && c.sent == {}
  }

  predicate Run(cs: seq<Cluster>, events: seq<Event>) {
    && |cs| == |events| + 1
    && Init(cs[0])
    && forall i :: 0 <= i < |events| ==> Next(cs[i], events[i], cs[i + 1])
  }

  // ---------------------------------------------------------- restarting

  /** Only node id acted, and it may have forgotten how far it had committed. */
  ghost predicate Restarts(w: World, w': World, id: NodeId) {
    && Le(w, w') && id in w'.nodes
    && (forall m {:trigger w'.nodes[m]} :: m in w.nodes && m != id ==> w'.nodes[m] == w.nodes[m])
    && (forall t {:trigger t in w'.h.reigns} :: t in w.h.reigns && w.h.reigns[t].leader != id ==> t in w'.h.reigns && w'.h.reigns[t] == w.h.reigns[t])
    && (forall t {:trigger Witnessed(w, w', id, t)} :: t in w'.h.reigns ==> Witnessed(w, w', id, t))
  }

  lemma RestartsThen(w: World, w1: World, w2: World, id: NodeId)
    requires Restarts(w, w1, id) && w1.h == w.h && Moves(w1, w2, id)
    ensures Restarts(w, w2, id)
  {
    LeTransitive(w, w1, w2);
    forall t | t in w2.h.reigns ensures Witnessed(w, w2, id, t) {
      assert Witnessed(w1, w2, id, t);
    }
  }

  lemma {:induction false} RestoreNothing(m: MembershipState, log: seq<Entry>, commit: Index)
    requires NoChanges(log)
    ensures RestoreMembership(m, log, commit) == m
  {
    if log != [] { RestoreNothing(m, log[..|log| - 1], commit); }
  }

  function Reopened(n: Node, commit: Index, opts: Options, timeout: Ticks): Node {
    n.(commit := commit, machine := EmptyState, opts := opts, role := Follower(None, 0, timeout, {}))
  }

  lemma ReopenedRep(w: World, n: Node, commit: Index, opts: Options, timeout: Ticks) returns (w': World)
    requires Rep(w, n) && commit <= n.commit && opts.maxAppendEntries >= 1
    ensures Rep(w', Reopened(n, commit, opts, timeout)) && Restarts(w, w', n.id) && w'.h == w.h
  {
    ForgetKeeps(w, n.id, commit);
    w' := Forget(w, n.id, commit);
    assert n.log[..0] == [];
  }

  lemma StartValue(config: Membership, n: Node, commit: Index, opts: Options, timeout: Ticks)
    requires n.id in config.voters && Ok(n) && Fixed(config, n) && commit <= n.commit
    ensures Ok(Reopened(n, commit, opts, timeout))
    ensures var n1 := MaybeApply(Reopened(n, commit, opts, timeout));
      Ok(n1) && n1.role.Follower? &&
      Start(n.id, config.voters - {n.id}, n.term, n.vote, n.log, commit, opts, timeout) ==
        if ClusterSize(n1) == 1 then
          var r := StandForElection(n1, false, timeout);
          WinElection(r.node).Also(r.out)
        else Stay(n1)
  {
    assert {n.id} + (config.voters - {n.id}) == config.voters;
    RestoreNothing(Bootstrap(n.id, config.voters - {n.id}), n.log, commit);
    hide StandForElection, WinElection;
  }

  lemma AloneWins(n: Node, timeout: Ticks)
    requires n.role.Follower? && Ok(n) && n.membership.active.Simple? && ClusterSize(n) == 1
    requires n.id in n.membership.active.config.voters && Applied(n.machine) == n.commit
    ensures var c := StandForElection(n, false, timeout).node;
      c.role.Candidate? && c.role.phase == Election && Ok(c) && c.membership.active.HasQuorum(c.role.votes)
  {
    var voters := n.membership.active.config.voters;
    assert voters - {n.id} == {} by { assert |voters - {n.id}| == 0; }
    assert voters * {n.id} == {n.id};
  }

  lemma StartRefines(w: World, n: Node, commit: Index, opts: Options, timeout: Ticks) returns (w': World)
    requires Rep(w, n) && commit <= n.commit && opts.maxAppendEntries >= 1
    ensures var r := Start(n.id, w.config.voters - {n.id}, n.term, n.vote, n.log, commit, opts, timeout);
      Rep(w', r.node) && r.node.id == n.id && MsgsOk(w', r.out) && Restarts(w, w', n.id)
      && w'.h.asked == w.h.asked && w'.h.wrote == w.h.wrote
  {
    assert n.id in w.config.voters;
    hide Inv, Le, Linked;
    var w1 := ReopenedRep(w, n, commit, opts, timeout);
    StartValue(w.config, n, commit, opts, timeout);
    var n0 := Reopened(n, commit, opts, timeout);
    CaughtUpRep(w1, n0);
    var n1 := MaybeApply(n0);
    w' := w1;
    hide Start, MaybeApply;
    if ClusterSize(n1) == 1 {
      AloneWins(n1, timeout);
      var r := StandForElection(n1, false, timeout);
      var w2 := StandForElectionRep(w1, n1, false, timeout);
      hide StandForElection, WinElection;
      w' := WinElectionRep(w2, r.node);
      RefinesChain(w1, w2, w', n1, r, WinElection(r.node));
      RestartsThen(w, w1, w', n.id);
    }
  }

  // --------------------------------------------------- worlds behind a run

  /** A world explains a cluster state: every node is represented in it and every
      message ever sent is true in it. */
  ghost predicate Good(c: Cluster, w: World) {
    && w.config == c.config && w.nodes.Keys == c.nodes.Keys
    && (forall id {:trigger c.nodes[id]} :: id in c.nodes ==> c.nodes[id].id == id && Rep(w, c.nodes[id]))
    && (forall e {:trigger MsgOk(w, e)} :: e in c.sent ==> MsgOk(w, e))
    && Inv(w)
  }

  /** How the world moves on an event. */
  ghost predicate Follows(c: Cluster, event: Event, w: World, w': World) {
    && Le(w, w')
    && Actor(event) in c.nodes && Actor(event) in w'.nodes
    && (forall t {:trigger Witnessed(w, w', Actor(event), t)} :: t in w'.h.reigns ==> Witnessed(w, w', Actor(event), t))
    && (if event.Deliver? || event.Submit? then
          Recording(w, w', c.nodes[Actor(event)], Handled(c.nodes[Actor(event)], event))
        else w'.h.asked == w.h.asked && w'.h.wrote == w.h.wrote)
  }

  const EmptyHistory := History(map[], map[], map[], map[], map[], map[], map[])

  lemma InitGood(c: Cluster) returns (w: World)
    requires Init(c)
    ensures Good(c, w) && w.h == EmptyHistory
  {
    w := World(c.config, map id | id in c.nodes :: ViewOf(c.nodes[id]), EmptyHistory);
    forall n | n in w.nodes ensures NodeOk(w, n) { assert Blank(c.config, n, c.nodes[n]); }
    assert Inv(w);
    forall id | id in c.nodes ensures c.nodes[id].id == id && Rep(w, c.nodes[id]) {
      assert Blank(c.config, id, c.nodes[id]);
      assert c.nodes[id].log[..0] == [];
    }
  }

  lemma ActorRefines(c: Cluster, event: Event, c': Cluster, w: World) returns (w': World)
    requires Good(c, w) && Next(c, event, c')
    ensures var n := c.nodes[Actor(event)];
      var r := React(c.config, n, event);
      n.id == Actor(event) && Rep(w', r.node) && r.node.id == n.id && MsgsOk(w', r.out)
      && (if event.Restart? then Restarts(w, w', n.id) else Advances(w, w', n.id))
      && Follows(c, event, w, w')
  {
    hide Inv, Le, Linked;
    var n := c.nodes[Actor(event)];
    assert n.id == Actor(event) && Rep(w, n);
    assert event.Deliver? ==> MsgOk(w, event.envelope);
    hide Inv, Le, Linked, Ok, Replayed, Fixed, MessageTrue;
    match event
    case Deliver(e, timeout) => w' := StepRefines(w, n, e, timeout);
    case Submit(_, id, request, timeout) =>
      SubmitTrue(w, n, id, request);
      w' := StepRefines(w, n, Handled(n, event), timeout);
    case Expire(_, timeout) => w' := TickRefines(w, n, timeout);
    case Restart(_, commit, opts, timeout) => w' := StartRefines(w, n, commit, opts, timeout);
  }

  lemma SubmitTrue(w: World, n: Node, id: RequestId, request: Request)
    requires n.id in w.nodes && !request.ChangeMembership?
    ensures MsgOk(w, Envelope(n.id, n.term, n.id, ClientRequest(id, request)))
  {
  }

  lemma NextGood(c: Cluster, event: Event, c': Cluster, w: World) returns (w': World)
    requires Good(c, w) && Next(c, event, c')
    ensures Good(c', w') && Follows(c, event, w, w')
  {
    hide Inv, Le, MessageTrue, Rep, Recording, Step, Tick, Start;
    w' := ActorRefines(c, event, c', w);
    NextNodes(c, event, c', w, w');
    NextSent(c, event, c', w, w');
    hide Follows, Advances, Restarts, React;
  }

  lemma NextNodes(c: Cluster, event: Event, c': Cluster, w: World, w': World)
    requires Good(c, w) && Next(c, event, c')
    requires var n := c.nodes[Actor(event)];
      var r := React(c.config, n, event);
      n.id == Actor(event) && Rep(w', r.node) && r.node.id == n.id
      && (if event.Restart? then Restarts(w, w', n.id) else Advances(w, w', n.id))
    ensures w'.config == w.config && w'.nodes.Keys == w.nodes.Keys && Inv(w')
    ensures forall id {:trigger c'.nodes[id]} :: id in c'.nodes ==> c'.nodes[id].id == id && Rep(w', c'.nodes[id])
  {
    hide Inv, Le, MessageTrue, Rep, Advances, Restarts, React;
    var a := Actor(event);
    AfterReact(w, w', React(c.config, c.nodes[a], event).node, a, event.Restart?);
    forall id | id in c'.nodes ensures c'.nodes[id].id == id && Rep(w', c'.nodes[id]) {
      if id != a { Bystander(w, w', c.nodes[id], a, event.Restart?); }
    }
  }

  lemma AfterReact(w: World, w': World, n: Node, a: NodeId, restart: bool)
    requires Rep(w', n) && if restart then Restarts(w, w', a) else Advances(w, w', a)
    ensures w'.config == w.config && w'.nodes.Keys == w.nodes.Keys && Inv(w')
  {
    hide Inv, Linked, Replayed, Ok;
  }

  lemma NextSent(c: Cluster, event: Event, c': Cluster, w: World, w': World)
    requires Good(c, w) && Next(c, event, c') && Le(w, w') && MsgsOk(w', React(c.config, c.nodes[Actor(event)], event).out)
    ensures forall e {:trigger MsgOk(w', e)} :: e in c'.sent ==> MsgOk(w', e)
  {
    hide Inv, Le, MessageTrue, Rep, React, MsgOk;
    forall e | e in c'.sent ensures MsgOk(w', e) {
      if e in c.sent {
        assert MsgOk(w, e);
        MsgStable(w, w', e);
      }
    }
  }

  lemma Bystander(w: World, w': World, n: Node, a: NodeId, restart: bool)
    requires Rep(w, n) && n.id != a && Inv(w')
    requires if restart then Restarts(w, w', a) else Advances(w, w', a)
    ensures Rep(w', n)
  {
    if n.role.Leader? {
      LeadsItsReign(w, n.id);
      assert n.term in w'.h.reigns;
    }
    RepStable(w, w', n);
  }

  ghost predicate Explains(ws: seq<World>, cs: seq<Cluster>, events: seq<Event>) {
    && |ws| == |cs| == |events| + 1 && ws[0].h == EmptyHistory
    && (forall i {:trigger ws[i]} :: 0 <= i < |cs| ==> Good(cs[i], ws[i]))
    && (forall i {:trigger events[i]} :: 0 <= i < |events| ==> Follows(cs[i], events[i], ws[i], ws[i + 1]))
  }

  /** Every run has worlds that explain it. */
  lemma {:induction false} Explained(cs: seq<Cluster>, events: seq<Event>) returns (ws: seq<World>)
    requires Run(cs, events)
    ensures Explains(ws, cs, events)
    decreases |events|
  {
    if events == [] {
      var w := InitGood(cs[0]);
      ws := [w];
    } else {
      var k := |events| - 1;
      var before := Explained(cs[..k + 1], events[..k]);
      assert Good(cs[..k + 1][k], before[k]);
      assert Next(cs[k], events[k], cs[k + 1]);
      var w := NextGood(cs[k], events[k], cs[k + 1], before[k]);
      ws := before + [w];
      Extended(before, w, cs, events);
    }
  }

  lemma Extended(before: seq<World>, w: World, cs: seq<Cluster>, events: seq<Event>)
    requires |cs| == |events| + 1 >= 2 && Explains(before, cs[..|events|], events[..|events| - 1])
    requires Good(cs[|events|], w) && Follows(cs[|events| - 1], events[|events| - 1], before[|events| - 1], w)
    ensures Explains(before + [w], cs, events)
  {
    var ws, k := before + [w], |events| - 1;
    hide Good, Follows;
    forall i | 0 <= i < |cs| ensures Good(cs[i], ws[i]) {
      if i <= k { assert cs[..k + 1][i] == cs[i] && before[i] == ws[i]; }
    }
    forall i | 0 <= i < |events| ensures Follows(cs[i], events[i], ws[i], ws[i + 1]) {
      if i < k { assert events[..k][i] == events[i] && cs[..k + 1][i] == cs[i] && before[i + 1] == ws[i + 1]; }
    }
  }

  lemma {:induction false} WorldsGrow(ws: seq<World>, cs: seq<Cluster>, events: seq<Event>, i: nat, j: nat)
    requires Explains(ws, cs, events) && i <= j < |ws|
    ensures Le(ws[i], ws[j])
    decreases j
  {
    hide Good, Le, Recording;
    if i == j { LeReflexive(ws[i]); }
    else {
      WorldsGrow(ws, cs, events, i, j - 1);
      assert Follows(cs[j - 1], events[j - 1], ws[j - 1], ws[j]);
      LeTransitive(ws[i], ws[j - 1], ws[j]);
    }
  }

  lemma NodeAt(ws: seq<World>, cs: seq<Cluster>, events: seq<Event>, i: nat, a: NodeId)
    requires Explains(ws, cs, events) && i < |cs| && a in cs[i].nodes
    ensures cs[i].nodes[a].id == a && Rep(ws[i], cs[i].nodes[a]) && NodeOk(ws[i], a)
  {
    hide NodeOk, Replayed, Linked, Le, MessageTrue, Follows;
    assert Good(cs[i], ws[i]);
    assert Rep(ws[i], cs[i].nodes[a]);
    assert NodeOk(ws[i], a);
  }

  lemma WorldAt(ws: seq<World>, cs: seq<Cluster>, events: seq<Event>, i: nat)
    requires Explains(ws, cs, events) && i < |cs|
    ensures Inv(ws[i]) && ws[i].nodes.Keys == cs[i].nodes.Keys
  {
    hide Inv, Rep, MsgOk, Le, Follows;
    assert Good(cs[i], ws[i]);
  }

  lemma SentAt(ws: seq<World>, cs: seq<Cluster>, events: seq<Event>, i: nat, e: Envelope)
    requires Explains(ws, cs, events) && i < |cs| && e in cs[i].sent
    ensures MsgOk(ws[i], e)
  {
    hide Inv, Rep, MsgOk, Le, Follows;
    assert Good(cs[i], ws[i]);
  }

  lemma EventAt(ws: seq<World>, cs: seq<Cluster>, events: seq<Event>, i: nat)
    requires Explains(ws, cs, events) && i < |events|
    ensures Follows(cs[i], events[i], ws[i], ws[i + 1])
  {
    hide Good, Follows;
    assert events[i] == events[i];
  }
}
