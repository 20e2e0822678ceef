/** What a leader owes those who wait for it (src/raft/node.rs:1618-1996): while it is in
    office, every write and change whose entry it applies is answered with what the entry
    gave, every read it releases with the value read, and nobody is told that a request
    was aborted. */
module Serving {
  import opened Basics
  import opened Configuration
  import opened Machine
  import opened LogSpec
  import opened Messages
  import opened RaftNode
  import opened NodeInvariant
  import Reconfiguration

  // ------------------------------------------------- what entries give

  /** An entry as the state machine gets it: a configuration is a no-op to it. */
  function Plainly(entry: Entry): Entry {
    if entry.membership.Some? then entry.(command := None) else entry
  }

  /** The state after applying some entries one after the other. */
  function RunOn(s: State, es: seq<Entry>): State {
    if es == [] then s else Apply(RunOn(s, es[..|es| - 1]), Plainly(es[|es| - 1])).0
  }

  lemma {:induction false} RunInTwo(s: State, a: seq<Entry>, b: seq<Entry>)
    ensures RunOn(s, a + b) == RunOn(RunOn(s, a), b)
    decreases |b|
  {
    if b == [] {
      assert a + b == a;
    } else {
      RunInTwo(s, a, b[..|b| - 1]);
      assert (a + b)[..|a + b| - 1] == a + b[..|b| - 1];
    }
  }

  /** Where no entry has both payloads, this is replaying. */
  lemma {:induction false} RunIsReplay(log: seq<Entry>)
    requires forall i :: 0 <= i < |log| ==> log[i].membership.None? || log[i].command.None?
    ensures RunOn(EmptyState, log) == Replay(log)
  {
    if log != [] { RunIsReplay(log[..|log| - 1]); }
  }

  /** The state after the entry at index i, from what the node had applied. */
  function StateAt(n: Node, log: seq<Entry>, i: Index): State
    requires Applied(n.machine) <= i <= |log|
  {
    RunOn(n.machine, log[Applied(n.machine)..i])
  }

  /** What the entry at index i gives on the state before it. */
  function ReplyAt(n: Node, log: seq<Entry>, i: Index): Reply
    requires Applied(n.machine) < i <= |log|
  {
    Apply(StateAt(n, log, i - 1), Plainly(log[i - 1])).1
  }

  lemma StateLater(n: Node, n1: Node, log: seq<Entry>, i: Index)
    requires Applied(n.machine) <= Applied(n1.machine) <= i <= |log| && n1.machine == StateAt(n, log, Applied(n1.machine))
    ensures StateAt(n1, log, i) == StateAt(n, log, i)
  {
    var a, b := log[Applied(n.machine)..Applied(n1.machine)], log[Applied(n1.machine)..i];
    assert log[Applied(n.machine)..i] == a + b;
    RunInTwo(n.machine, a, b);
  }

  lemma StateOfPrefix(n: Node, log: seq<Entry>, longer: seq<Entry>, i: Index)
    requires Applied(n.machine) <= i <= |log| && log <= longer
    ensures StateAt(n, longer, i) == StateAt(n, log, i)
  {
    assert longer[Applied(n.machine)..i] == log[Applied(n.machine)..i];
  }

  // ------------------------------------------------------ what is owed

  /** A message a leader in office sends: in its own name and term, no request, no abort,
      and no more entries at once than its options allow. */
  predicate Calm(n: Node, e: Envelope) {
    && e.from == n.id && e.term == n.term && !e.message.ClientRequest?
    && (e.message.ClientResponse? ==> e.message.response != Failed(Abort))
    && (e.message.Append? ==> |e.message.entries| <= n.opts.maxAppendEntries)
  }

  ghost predicate AllCalm(n: Node, out: multiset<Envelope>) {
    forall e :: e in out ==> Calm(n, e)
  }

  /** The leader has moved on in its office. */
  predicate MovedOn(n: Node, n': Node) {
    && n.role.Leader? && n'.role.Leader? && Ok(n) && Ok(n') && n'.id == n.id && n'.term == n.term && n'.opts == n.opts
    && n.log <= n'.log && Applied(n.machine) <= Applied(n'.machine) <= |n'.log|
    && n'.machine == StateAt(n, n'.log, Applied(n'.machine))
  }

  /** Who waited for a write is told what its entry gave if it is applied, and waits on
      otherwise. */
  predicate WriteServed(n: Node, r: Outcome, i: Index)
    requires MovedOn(n, r.node) && i in n.role.writes
  {
    Applied(n.machine) < i <= |n.log|
    && if i <= Applied(r.node.machine) then Respond(n, n.role.writes[i], WriteResult(ReplyAt(n, r.node.log, i))) in r.out
       else i in r.node.role.writes && r.node.role.writes[i] == n.role.writes[i]
  }

  /** Who waited for a change is told its index, or waits on. */
  predicate ChangeServed(n: Node, r: Outcome, i: Index)
    requires MovedOn(n, r.node) && i in n.role.membershipWrites
  {
    Applied(n.machine) < i <= |n.log|
    && if i <= Applied(r.node.machine) then Respond(n, n.role.membershipWrites[i], MembershipResult(i)) in r.out
       else i in r.node.role.membershipWrites && r.node.role.membershipWrites[i] == n.role.membershipWrites[i]
  }

  /** The read was answered with its value on what had been applied at some point. */
  ghost predicate ReadAnswered(n: Node, r: Outcome, read: PendingRead)
    requires MovedOn(n, r.node)
  {
    exists i :: Applied(n.machine) <= i <= Applied(r.node.machine) && ReadAnsweredAt(n, r, read, i)
  }

  predicate ReadAnsweredAt(n: Node, r: Outcome, read: PendingRead, i: Index)
    requires MovedOn(n, r.node) && Applied(n.machine) <= i <= Applied(r.node.machine)
  {
    Respond(n, read.client, ReadResult(Machine.Read(StateAt(n, r.node.log, i), read.query))) in r.out
  }

  ghost predicate Serves(n: Node, r: Outcome) {
    && MovedOn(n, r.node) && AllCalm(n, r.out)
    && (forall i :: i in n.role.writes ==> WriteServed(n, r, i))
    && (forall i :: i in n.role.membershipWrites ==> ChangeServed(n, r, i))
    && forall read :: read in n.role.pendingReads ==> read in r.node.role.pendingReads || ReadAnswered(n, r, read)
  }

  // ------------------------------------------------------- composition

  lemma MovedTwice(n: Node, n1: Node, n2: Node)
    requires MovedOn(n, n1) && MovedOn(n1, n2)
    ensures MovedOn(n, n2)
  {
    hide Ok;
    StateOfPrefix(n, n1.log, n2.log, Applied(n1.machine));
    StateLater(n, n1, n2.log, Applied(n2.machine));
  }

  lemma WriteServedTwice(n: Node, r1: Outcome, r2: Outcome, i: Index)
    requires MovedOn(n, r1.node) && MovedOn(r1.node, r2.node) && MovedOn(n, r2.node) && i in n.role.writes && WriteServed(n, r1, i)
    requires i in r1.node.role.writes ==> WriteServed(r1.node, r2, i)
    ensures WriteServed(n, r2.Also(r1.out), i)
  {
    hide Ok, StateAt;
    if i <= Applied(r1.node.machine) {
      StateOfPrefix(n, r1.node.log, r2.node.log, i - 1);
    } else if i <= Applied(r2.node.machine) {
      StateOfPrefix(n, r1.node.log, r2.node.log, Applied(r1.node.machine));
      StateLater(n, r1.node, r2.node.log, i - 1);
    }
  }

  lemma ReadAnsweredTwice(n: Node, r1: Outcome, r2: Outcome, read: PendingRead)
    requires MovedOn(n, r1.node) && MovedOn(r1.node, r2.node) && MovedOn(n, r2.node)
    requires ReadAnswered(n, r1, read) || ReadAnswered(r1.node, r2, read)
    ensures ReadAnswered(n, r2.Also(r1.out), read)
  {
    hide Ok, StateAt;
    if ReadAnswered(n, r1, read) {
      var i :| Applied(n.machine) <= i <= Applied(r1.node.machine) && ReadAnsweredAt(n, r1, read, i);
      StateOfPrefix(n, r1.node.log, r2.node.log, i);
      assert ReadAnsweredAt(n, r2.Also(r1.out), read, i);
    } else {
      var i :| Applied(r1.node.machine) <= i <= Applied(r2.node.machine) && ReadAnsweredAt(r1.node, r2, read, i);
      StateOfPrefix(n, r1.node.log, r2.node.log, Applied(r1.node.machine));
      StateLater(n, r1.node, r2.node.log, i);
      assert ReadAnsweredAt(n, r2.Also(r1.out), read, i);
    }
  }

  lemma ServesTwice(n: Node, r1: Outcome, r2: Outcome)
    requires Serves(n, r1) && Serves(r1.node, r2)
    ensures Serves(n, r2.Also(r1.out)) && Serves(n, Outcome(r2.node, r1.out + r2.out))
  {
    MovedTwice(n, r1.node, r2.node);
    var r := r2.Also(r1.out);
    assert r == Outcome(r2.node, r1.out + r2.out);
    hide MovedOn, WriteServed, ReadAnswered;
    forall i | i in n.role.writes ensures WriteServed(n, r, i) { WriteServedTwice(n, r1, r2, i); }
    forall i | i in n.role.membershipWrites ensures ChangeServed(n, r, i) {}
    forall read | read in n.role.pendingReads ensures read in r.node.role.pendingReads || ReadAnswered(n, r, read) {
      if read !in r.node.role.pendingReads { ReadAnsweredTwice(n, r1, r2, read); }
    }
  }

  /** Everyone waits on. */
  predicate Waits(n: Node, n': Node) {
    && n.role.Leader? && n'.role.Leader? && Ok(n) && Ok(n') && n'.id == n.id && n'.term == n.term && n'.opts == n.opts
    && n.log <= n'.log && n'.machine == n.machine
    && (forall i :: i in n.role.writes ==> i in n'.role.writes && n'.role.writes[i] == n.role.writes[i])
    && (forall i :: i in n.role.membershipWrites ==> i in n'.role.membershipWrites && n'.role.membershipWrites[i] == n.role.membershipWrites[i])
    && forall read :: read in n.role.pendingReads ==> read in n'.role.pendingReads
  }

  lemma ServesWaiting(n: Node, r: Outcome)
    requires Waits(n, r.node) && AllCalm(n, r.out)
    ensures Serves(n, r)
  {
    assert n.log[Applied(n.machine)..Applied(n.machine)] == [];
    assert r.node.log[Applied(n.machine)..Applied(n.machine)] == [];
  }

  /** Earlier parts of a step may be forgotten when they leave everyone waiting. */
  lemma ServesFrom(n: Node, n1: Node, r: Outcome)
    requires Waits(n, n1) && Serves(n1, r)
    ensures Serves(n, r)
  {
    ServesWaiting(n, Stay(n1));
    ServesTwice(n, Stay(n1), r);
    assert r.Also(multiset{}) == r;
    hide Serves, Waits;
  }

  lemma ServesStay(n: Node)
    requires n.role.Leader? && Ok(n)
    ensures Serves(n, Stay(n))
  {
    ServesWaiting(n, Stay(n));
  }

  // -------------------------------------------------- sending and appending

  lemma OfferWaits(n: Node)
    requires n.role.Leader? && Ok(n)
    ensures Waits(n, Offer(n).node) && AllCalm(n, Offer(n).out)
  {
  }

  lemma SendServes(n: Node, peer: NodeId, probe: bool)
    requires n.role.Leader? && Ok(n)
    ensures Serves(n, SendAppend(n, peer, probe)) && Waits(n, SendAppend(n, peer, probe).node)
  {
    assert Waits(n, SendAppend(n, peer, probe).node);
    assert AllCalm(n, SendAppend(n, peer, probe).out);
    hide Serves, Waits, Ok;
    ServesWaiting(n, SendAppend(n, peer, probe));
  }

  lemma ProposeWaits(n: Node, command: Option<Command>)
    requires n.role.Leader? && Ok(n)
    ensures CanAppend(n) && Waits(n, Propose(n, command).node) && AllCalm(n, Propose(n, command).out)
  {
    var n1 := AppendEntry(n, command, None);
    assert Waits(n, n1);
    hide Offer, LeaderOk;
    OfferWaits(n1);
  }

  lemma ProposalWaits(n: Node, m: MembershipEntry)
    requires n.role.Leader? && Ok(n)
    ensures CanAppend(n) && Waits(n, ProposeMembership(n, m).node) && AllCalm(n, ProposeMembership(n, m).out)
  {
    var n1 := AppendEntry(n, None, Some(m));
    var n2 := SyncProgress(n1.(membership := n1.membership.ApplyEntry(m)));
    assert Waits(n, n2);
    hide Offer, LeaderOk;
    OfferWaits(n2);
  }

  // --------------------------------------------------- applying, reading

  lemma ApplyNextMoves(n: Node)
    requires n.role.Leader? && Ok(n) && Applied(n.machine) < n.commit
    ensures var r := ApplyNext(n);
      && MovedOn(n, r.node) && AllCalm(n, r.out) && r.node.log == n.log && r.node.role.pendingReads == n.role.pendingReads
      && r.node.commit == n.commit && Applied(r.node.machine) == Applied(n.machine) + 1
  {
    var a := Applied(n.machine);
    assert n.log[a..a + 1] == [n.log[a]] && [n.log[a]][..0] == [];
    assert RunOn(n.machine, []) == n.machine;
    assert RunOn(n.machine, [n.log[a]]) == Apply(n.machine, Plainly(n.log[a])).0;
  }

  lemma ApplyNextServes(n: Node)
    requires n.role.Leader? && Ok(n) && Applied(n.machine) < n.commit
    ensures Serves(n, ApplyNext(n)) && ApplyNext(n).node.commit == n.commit && ApplyNext(n).node.log == n.log
  {
    ApplyNextMoves(n);
    var a, r := Applied(n.machine), ApplyNext(n);
    assert n.log[a..a] == [];
    assert StateAt(n, n.log, a) == n.machine;
    forall i | i in n.role.writes ensures WriteServed(n, r, i) {}
    forall i | i in n.role.membershipWrites ensures ChangeServed(n, r, i) {}
    hide ApplyNext, Ok, MovedOn, AllCalm, WriteServed, ChangeServed;
  }

  lemma {:induction false} ApplyAllServes(n: Node)
    requires n.role.Leader? && Ok(n)
    ensures Serves(n, ApplyAll(n)) && ApplyAll(n).node.log == n.log && ApplyAll(n).node.commit == n.commit
    decreases n.commit - Applied(n.machine)
  {
    hide Serves, ApplyNext, Ok;
    if Applied(n.machine) < n.commit {
      ApplyNextServes(n);
      ApplyAllServes(ApplyNext(n).node);
      ServesTwice(n, ApplyNext(n), ApplyAll(ApplyNext(n).node));
    } else {
      ServesStay(n);
    }
  }

  lemma PopServes(n: Node)
    requires n.role.Leader? && Ok(n) && n.role.pendingReads != []
    ensures var n1 := n.(role := n.role.(pendingReads := n.role.pendingReads[1..]));
      Ok(n1) && Serves(n, Outcome(n1, multiset{AnswerRead(n, n.role.pendingReads[0])}))
  {
    var n1 := n.(role := n.role.(pendingReads := n.role.pendingReads[1..]));
    var r := Outcome(n1, multiset{AnswerRead(n, n.role.pendingReads[0])});
    var a := Applied(n.machine);
    assert n.log[a..a] == [] && StateAt(n, n.log, a) == n.machine;
    assert Ok(n1) && MovedOn(n, n1);
    assert ReadAnsweredAt(n, r, n.role.pendingReads[0], a);
    forall read | read in n.role.pendingReads ensures read in n1.role.pendingReads || ReadAnswered(n, r, read) {
      if read != n.role.pendingReads[0] { assert n.role.pendingReads == [n.role.pendingReads[0]] + n.role.pendingReads[1..]; }
    }
  }

  lemma {:induction false} AnswerReadsServes(n: Node)
    requires n.role.Leader? && Ok(n)
    ensures Serves(n, AnswerReads(n))
    decreases |n.role.pendingReads|
  {
    hide Serves, AnswerRead, Ok;
    if n.role.pendingReads == [] || !CanRead(n) || !Confirmed(n, n.role.pendingReads[0].serial) {
      ServesStay(n);
    } else {
      var n1 := n.(role := n.role.(pendingReads := n.role.pendingReads[1..]));
      PopServes(n);
      AnswerReadsServes(n1);
      ServesTwice(n, Outcome(n1, multiset{AnswerRead(n, n.role.pendingReads[0])}), AnswerReads(n1));
    }
  }

  lemma SyncWaits(n: Node)
    requires n.role.Leader? && Ok(n)
    ensures Waits(n, SyncProgress(n))
  {
  }

  lemma {:induction false} FollowUpServes(n: Node, ms: seq<MembershipEntry>)
    requires n.role.Leader? && Ok(n)
    ensures Serves(n, AfterConfigurations(n, ms).outcome)
    decreases |ms|
  {
    hide Serves, Waits, ProposeMembership, CanAppend, Ok, SyncProgress;
    if ms == [] {
      ServesStay(n);
    } else {
      ProposalWaits(n, Simple(ms[0].Target()));
      var r := if ms[0].Joint? then ProposeMembership(n, Simple(ms[0].incoming)) else Stay(n);
      if ms[0].Joint? { ServesWaiting(n, r); } else { ServesStay(n); }
      SyncWaits(r.node);
      FollowUpServes(SyncProgress(r.node), ms[1..]);
      ServesFrom(r.node, SyncProgress(r.node), AfterConfigurations(SyncProgress(r.node), ms[1..]).outcome);
      ServesTwice(n, r, AfterConfigurations(SyncProgress(r.node), ms[1..]).outcome);
    }
  }

  /** Committing answers everyone whose entry it applies, with what the entry gave. */
  lemma CommitServes(n: Node)
    requires n.role.Leader? && Ok(n)
    ensures Serves(n, CommitAndApply(n).outcome)
  {
    assert Applied(n.machine) <= n.commit <= |n.log|;
    hide Serves, ApplyAll, AfterConfigurations, AnswerReads, Configurations, CommitTarget, TermAt, LeaderOk;
    var target := CommitTarget(n, |n.log|);
    if target > n.commit {
      var n1 := n.(commit := target);
      var r1 := ApplyAll(n1);
      var r2 := AfterConfigurations(r1.node, Configurations(n.log, Applied(n.machine), target)).outcome;
      var r3 := if TermAt(n.log, n.commit) != n.term then AnswerReads(r2.node) else Stay(r2.node);
      CommitWaits(n, n1);
      ApplyAllServes(n1);
      ServesFrom(n, n1, r1);
      FollowUpServes(r1.node, Configurations(n.log, Applied(n.machine), target));
      ServesTwice(n, r1, r2);
      AnswerReadsServes(r2.node);
      ServesStay(r2.node);
      ServesTwice(n, Outcome(r2.node, r1.out + r2.out), r3);
    } else {
      ServesStay(n);
    }
  }

  lemma CommitWaits(n: Node, n1: Node)
    requires n.role.Leader? && Ok(n) && n1 == n.(commit := n1.commit) && n.commit <= n1.commit <= |n.log|
    ensures Waits(n, n1)
  {
  }

  // ------------------------------------------------------ every message

  lemma ProgressWaits(n: Node, peer: NodeId, p: Progress)
    requires n.role.Leader? && Ok(n) && peer in n.role.progress && ProgressOk(p, |n.log|)
    ensures Waits(n, SetProgress(n, peer, p))
  {
  }

  lemma PeerOk(n: Node, peer: NodeId)
    requires n.role.Leader? && Ok(n) && peer in n.role.progress
    ensures ProgressOk(n.role.progress[peer], |n.log|)
  {
  }

  lemma MatchServes(n: Node, peer: NodeId, index: Index)
    requires n.role.Leader? && Ok(n) && peer in n.role.progress && index <= |n.log|
    ensures Serves(n, OnMatch(n, peer, index).outcome)
  {
    hide Serves, CommitAndApply, LeaderOk;
    PeerOk(n, peer);
    if index > n.role.progress[peer].matchIndex {
      var n1 := SetProgress(n, peer, n.role.progress[peer].Advance(index));
      ProgressWaits(n, peer, n.role.progress[peer].Advance(index));
      CommitServes(n1);
      ServesFrom(n, n1, CommitAndApply(n1).outcome);
    } else {
      ServesStay(n);
    }
  }

  lemma ProbeServes(n: Node, peer: NodeId, next: Index)
    requires n.role.Leader? && Ok(n) && peer in n.role.progress
    ensures Serves(n, Probe(n, peer, next))
  {
    hide Serves, SendAppend, LeaderOk;
    PeerOk(n, peer);
    var p := n.role.progress[peer].Regress(next);
    ProgressWaits(n, peer, p);
    SendServes(SetProgress(n, peer, p), peer, true);
    ServesFrom(n, SetProgress(n, peer, p), SendAppend(SetProgress(n, peer, p), peer, true));
  }

  lemma ReadAckServes(n: Node, peer: NodeId, serial: nat)
    requires n.role.Leader? && Ok(n) && peer in n.role.progress
    ensures Serves(n, OnReadAck(n, peer, serial))
  {
    hide Serves, AnswerReads, LeaderOk;
    PeerOk(n, peer);
    if serial > n.role.progress[peer].readSeq {
      var n1 := SetProgress(n, peer, n.role.progress[peer].AdvanceRead(serial));
      ProgressWaits(n, peer, n.role.progress[peer].AdvanceRead(serial));
      AnswerReadsServes(n1);
      ServesFrom(n, n1, AnswerReads(n1));
      assert OnReadAck(n, peer, serial) == AnswerReads(n1);
    } else {
      ServesStay(n);
    }
  }

  lemma NotedWaits(n: Node, from: NodeId)
    requires n.role.Leader? && Ok(n)
    ensures Waits(n, NotePeer(n, from)) && Ok(NotePeer(n, from)) && NotePeer(n, from).role.progress == n.role.progress
  {
  }

  lemma HeartbeatResponseServes(n: Node, e: Envelope)
    requires n.role.Leader? && Ok(n) && e.message.HeartbeatResponse? && OnHeartbeatResponse(n, e).outcome.node.role.Leader?
    ensures Serves(n, OnHeartbeatResponse(n, e).outcome)
  {
    hide Serves, OnMatch, OnReadAck, Probe, LeaderOk, NotePeer, Waits;
    var m := e.message;
    ServesStay(n);
    if e.from in n.role.progress {
      NotedWaits(n, e.from);
      var n1 := NotePeer(n, e.from);
      ReadAckServes(n1, e.from, m.readSeq);
      var r2 := OnReadAck(n1, e.from, m.readSeq);
      ProbeServes(r2.node, e.from, |n1.log|);
      ServesStay(r2.node);
      var r3 := if m.matchIndex != 0 then Stay(r2.node) else Probe(r2.node, e.from, |n1.log|);
      ServesTwice(n1, r2, r3);
      var r4 := OnMatch(r3.node, e.from, m.matchIndex).outcome;
      MatchServes(r3.node, e.from, m.matchIndex);
      ServesTwice(n1, Outcome(r3.node, r2.out + r3.out), r4);
      ServesFrom(n, n1, r4.Also(r2.out + r3.out));
    }
  }

  lemma AcceptedServes(n: Node, peer: NodeId, index: Index)
    requires n.role.Leader? && Ok(n) && peer in n.role.progress && index <= |n.log|
    ensures Serves(n, OnAccepted(n, peer, index).outcome)
  {
    hide Serves, OnMatch, SendAppend, LeaderOk;
    var r2 := OnMatch(n, peer, index).outcome;
    MatchServes(n, peer, index);
    SendServes(r2.node, peer, false);
    ServesTwice(n, r2, SendAppend(r2.node, peer, false));
  }

  lemma AppendResponseServes(n: Node, e: Envelope)
    requires n.role.Leader? && Ok(n) && e.message.AppendResponse? && OnAppendResponse(n, e).outcome.node.role.Leader?
    ensures Serves(n, OnAppendResponse(n, e).outcome)
  {
    hide Serves, OnAccepted, Probe, LeaderOk, NotePeer, Waits;
    var m := e.message;
    ServesStay(n);
    if e.from in n.role.progress {
      NotedWaits(n, e.from);
      var n1 := NotePeer(n, e.from);
      ServesStay(n1);
      ServesFrom(n, n1, Stay(n1));
      ProbeServes(n1, e.from, m.rejectIndex);
      ServesFrom(n, n1, Probe(n1, e.from, m.rejectIndex));
      if m.matchIndex <= |n1.log| {
        AcceptedServes(n1, e.from, m.matchIndex);
        ServesFrom(n, n1, OnAccepted(n1, e.from, m.matchIndex).outcome);
      }
    }
  }

  lemma AloneServes(n: Node, r: Outcome)
    requires Waits(n, r.node) && AllCalm(n, r.out)
    ensures Serves(n, CommitIfAlone(r).outcome)
  {
    hide Serves, CommitAndApply, LeaderOk;
    ServesWaiting(n, r);
    CommitServes(r.node);
    ServesTwice(n, r, CommitAndApply(r.node).outcome);
  }

  lemma WriteServes(n: Node, client: Client, request: Request)
    requires n.role.Leader? && Ok(n) && (request.WriteRequest? || request.SessionRequest?)
    ensures Serves(n, OnWrite(n, client, request).outcome)
  {
    var r := Propose(n, Some(CommandOf(request)));
    var n1 := r.node.(role := r.node.role.(writes := r.node.role.writes[|r.node.log| := client]));
    ProposeWaits(n, Some(CommandOf(request)));
    ProposedWaits(n, Some(CommandOf(request)), client);
    hide Serves, Propose, CommitIfAlone, Ok, CanAppend, Waits;
    AloneServes(n, Outcome(n1, r.out));
  }

  lemma ProposedWaits(n: Node, command: Option<Command>, client: Client)
    requires n.role.Leader? && Ok(n) && CanAppend(n)
    ensures var r := Propose(n, command).node;
      Waits(n, r.(role := r.role.(writes := r.role.writes[|r.log| := client])))
  {
  }

  lemma ChangedWaits(n: Node, m: MembershipEntry, client: Client)
    requires n.role.Leader? && Ok(n) && CanAppend(n)
    ensures var r := ProposeMembership(n, m).node;
      Waits(n, r.(role := r.role.(membershipWrites := r.role.membershipWrites[|r.log| := client])))
  {
  }

  lemma ChangeServes(n: Node, client: Client, voters: set<NodeId>)
    requires n.role.Leader? && Ok(n)
    ensures Serves(n, OnRequest(n, client, ChangeMembership(voters)).outcome)
  {
    hide Serves, ProposeMembership, CommitIfAlone, LeaderOk, CanAppend, Waits;
    if ChangeError(n, voters).None? {
      var m := Joint(n.membership.active.config, Membership(voters));
      ProposalWaits(n, m);
      var r := ProposeMembership(n, m);
      var n1 := r.node.(role := r.node.role.(membershipWrites := r.node.role.membershipWrites[|r.node.log| := client]));
      ChangedWaits(n, m, client);
      AloneServes(n, Outcome(n1, r.out));
    } else {
      RespondServes(n, client, Failed(InvalidInput(ChangeError(n, voters).value)));
    }
  }

  lemma RespondServes(n: Node, client: Client, response: Response)
    requires n.role.Leader? && Ok(n) && response != Failed(Abort)
    ensures Serves(n, Outcome(n, multiset{Respond(n, client, response)}))
  {
    ServesWaiting(n, Outcome(n, multiset{Respond(n, client, response)}));
  }

  lemma ReadServes(n: Node, client: Client, query: ReadCommand)
    requires n.role.Leader? && Ok(n)
    ensures Serves(n, OnRequest(n, client, ReadRequest(query)).outcome)
  {
    var n1 := Queued(n, client, query);
    var ask := Broadcast(n1, Message.Read(n1.role.readSeq));
    assert Waits(n, n1) && AllCalm(n, ask);
    hide Serves, AnswerReads, LeaderOk, Waits, Broadcast, AllCalm;
    ServesWaiting(n, Outcome(n1, ask));
    AnswerReadsServes(n1);
    ServesStay(n1);
    ServesTwice(n, Outcome(n1, ask), if ClusterSize(n1) == 1 then AnswerReads(n1) else Stay(n1));
  }

  lemma RequestServes(n: Node, client: Client, request: Request)
    requires n.role.Leader? && Ok(n)
    ensures Serves(n, OnRequest(n, client, request).outcome)
  {
    hide Serves, OnWrite, ProposeMembership, CommitIfAlone, AnswerReads, LeaderOk;
    match request
    case ReadRequest(query) => ReadServes(n, client, query);
    case StatusRequest => RespondServes(n, client, Status(n));
    case ChangeMembership(voters) => ChangeServes(n, client, voters);
    case _ => WriteServes(n, client, request);
  }

  lemma AtTermServes(n: Node, e: Envelope)
    requires n.role.Leader? && Ok(n) && LeaderAtTerm(n, e).outcome.node.role.Leader?
    ensures Serves(n, LeaderAtTerm(n, e).outcome)
  {
    hide Serves, OnHeartbeatResponse, OnAppendResponse, OnReadAck, OnRequest, LeaderOk, NotePeer, Waits;
    ServesStay(n);
    match e.message
    case HeartbeatResponse(_, _) => HeartbeatResponseServes(n, e);
    case AppendResponse(_, _) => AppendResponseServes(n, e);
    case ReadResponse(serial) =>
      NotedWaits(n, e.from);
      if e.from in n.role.progress {
        ReadAckServes(NotePeer(n, e.from), e.from, serial);
        ServesFrom(n, NotePeer(n, e.from), OnReadAck(NotePeer(n, e.from), e.from, serial));
      }
    case ClientRequest(id, request) => RequestServes(n, Client(e.from, id), request);
    case Campaign(_, _) => RefusalServes(n, e.from);
    case _ =>
  }

  lemma RefusalServes(n: Node, to: NodeId)
    requires n.role.Leader? && Ok(n)
    ensures Serves(n, Reply1(n, to, CampaignResponse(false))) && Serves(n, Reply1(n, to, PreCampaignResponse(false)))
  {
    ServesWaiting(n, Reply1(n, to, CampaignResponse(false)));
    ServesWaiting(n, Reply1(n, to, PreCampaignResponse(false)));
  }

  lemma HaltedSilent(n: Node, e: Envelope)
    requires n.role.Leader? && Ok(n) && !LeaderAtTerm(n, e).outcome.node.role.Leader?
    ensures LeaderAtTerm(n, e).outcome.out == multiset{}
  {
    hide OnMatch, OnReadAck, Probe, OnAccepted, OnRequest, LeaderOk;
  }

  // ------------------------------------------------------ a leader's step

  lemma OwnTermStep(n: Node, e: Envelope, timeout: Ticks)
    requires n.role.Leader? && Ok(n) && e.to == n.id && KnownSender(n, e.from) && e.term == n.term && !IsPreVote(e.message)
    ensures var r := LeaderAtTerm(n, e);
      Step(n, e, timeout) ==
        if r.stepDown then StepDown(r.outcome.node, r.outcome.node.term, timeout).Also(r.outcome.out) else r.outcome
  {
    hide LeaderAtTerm, FollowerAtTerm, FollowerStep, CandidateStep, StepDown, LeaderOk;
  }

  /** Every message of the leader's own term that it survives: everyone it owes an answer
      is served before it possibly leaves office. */
  lemma OwnTermServes(n: Node, e: Envelope, timeout: Ticks) returns (r: Outcome)
    requires n.role.Leader? && Ok(n) && e.to == n.id && KnownSender(n, e.from) && e.term == n.term && !IsPreVote(e.message)
    requires !Step(n, e, timeout).node.role.Halted?
    ensures Serves(n, r) && r.out <= Step(n, e, timeout).out
    ensures var n' := Step(n, e, timeout).node; n'.log == r.node.log && n'.machine == r.node.machine && n'.term == n.term
    ensures Step(n, e, timeout).node.role.Leader? ==> Step(n, e, timeout) == r
  {
    hide Serves, LeaderAtTerm, AbortTable, AbortReads, Step, LeaderOk;
    OwnTermStep(n, e, timeout);
    AtTermServes(n, e);
    r := LeaderAtTerm(n, e).outcome;
    ServesSameTerm(n, r);
  }

  lemma ServesSameTerm(n: Node, r: Outcome)
    requires Serves(n, r)
    ensures MovedOn(n, r.node) && AllCalm(n, r.out) && r.node.term == n.term
  {
  }

  /** The same of any message that leaves the leader in office. */
  lemma StepServes(n: Node, e: Envelope, timeout: Ticks)
    requires n.role.Leader? && Ok(n) && Step(n, e, timeout).node.role.Leader?
    ensures Serves(n, Step(n, e, timeout))
  {
    hide Serves, LeaderAtTerm, Ok;
    ServesStay(n);
    RefusalServes(n, e.from);
    StaysByTerm(n, e, timeout);
    if e.to == n.id && KnownSender(n, e.from) && e.term == n.term && !IsPreVote(e.message) {
      var r := OwnTermServes(n, e, timeout);
    }
  }

  /** Otherwise it does nothing, or turns down a pre-vote. */
  lemma StaysByTerm(n: Node, e: Envelope, timeout: Ticks)
    requires n.role.Leader? && Ok(n) && Step(n, e, timeout).node.role.Leader?
    ensures e.to == n.id
    ensures !(KnownSender(n, e.from) && e.term == n.term && !IsPreVote(e.message)) ==>
      Step(n, e, timeout) == Stay(n) || Step(n, e, timeout) == Reply1(n, e.from, PreCampaignResponse(false))
  {
    StepDownFollows(n, e, timeout);
    hide LeaderAtTerm, FollowerAtTerm, FollowerStep, CandidateStep, StepDown, LeaderOk;
  }

  lemma StepDownFollows(n: Node, e: Envelope, timeout: Ticks)
    requires n.role.Leader? && Ok(n)
    ensures var f := StepDown(n, e.term, timeout).node; Ok(f) && f.role.Follower? && !FollowerAtTerm(f, e).node.role.Leader?
  {
    hide AbortTable, AbortReads, FollowerAtTerm, LeaderOk;
    Reconfiguration.FollowerNeverLeads(StepDown(n, e.term, timeout).node, e);
  }

  lemma TickServes(n: Node, timeout: Ticks)
    requires n.role.Leader? && Ok(n) && Tick(n, timeout).node.role.Leader?
    ensures Serves(n, Tick(n, timeout)) && Tick(n, timeout).node.machine == n.machine && Tick(n, timeout).node.log == n.log
  {
    TickWaits(n, timeout);
    hide Serves, Tick, Waits;
    ServesWaiting(n, Tick(n, timeout));
  }

  lemma TickWaits(n: Node, timeout: Ticks)
    requires n.role.Leader? && Ok(n) && Tick(n, timeout).node.role.Leader?
    ensures var r := Tick(n, timeout); Waits(n, r.node) && AllCalm(n, r.out) && r.node.machine == n.machine && r.node.log == n.log
  {
    hide AbortTable, AbortReads, Active, ClusterSize, Announce;
    var n1 := n.(role := n.role.(
        peerSeen := map p | p in n.role.peerSeen :: Min(n.role.peerSeen[p] + 1, MAX_TICKS),
        sinceHeartbeat := n.role.sinceHeartbeat + 1));
    assert Waits(n, n1);
    AnnounceWaits(n1);
    assert Tick(n, timeout) == Announce(n1) || Tick(n, timeout) == Stay(n1);
    hide Ok;
  }

  lemma AnnounceWaits(n: Node)
    requires n.role.Leader? && Ok(n)
    ensures var r := Announce(n); Waits(n, r.node) && AllCalm(n, r.out) && r.node.machine == n.machine && r.node.log == n.log
  {
  }

  /** A write that is applied is answered with its result: on any message of the leader's
      own term, whether or not the leader leaves office over it. */
  lemma WritesAnswered(n: Node, e: Envelope, timeout: Ticks, i: Index)
    requires n.role.Leader? && Ok(n) && e.to == n.id && KnownSender(n, e.from) && e.term == n.term && !IsPreVote(e.message)
    requires !Step(n, e, timeout).node.role.Halted?
    requires Applied(n.machine) < i <= Applied(Step(n, e, timeout).node.machine)
    ensures i <= |Step(n, e, timeout).node.log|
    ensures i in n.role.writes ==>
      Envelope(n.id, n.term, n.role.writes[i].from,
               ClientResponse(n.role.writes[i].id, WriteResult(ReplyAt(n, Step(n, e, timeout).node.log, i)))) in Step(n, e, timeout).out
    ensures i in n.role.membershipWrites ==>
      Envelope(n.id, n.term, n.role.membershipWrites[i].from,
               ClientResponse(n.role.membershipWrites[i].id, MembershipResult(i))) in Step(n, e, timeout).out
  {
    hide Step, ReplyAt, Ok, StateAt;
    var r := OwnTermServes(n, e, timeout);
    assert i in n.role.writes ==> WriteServed(n, r, i);
    assert i in n.role.membershipWrites ==> ChangeServed(n, r, i);
  }

  /** While it stays in office, a leader tells no client that its request was aborted,
      sends only in its own name and term, and no more entries at once than allowed. */
  lemma NobodyAborted(n: Node, e: Envelope, timeout: Ticks)
    requires n.role.Leader? && Ok(n)
    ensures Step(n, e, timeout).node.role.Leader? ==> forall m :: m in Step(n, e, timeout).out ==> Calm(n, m)
    ensures Tick(n, timeout).node.role.Leader? ==> forall m :: m in Tick(n, timeout).out ==> Calm(n, m)
  {
    hide Step, Tick, Ok, Serves, Calm;
    if Step(n, e, timeout).node.role.Leader? {
      StepServes(n, e, timeout);
      ServesSameTerm(n, Step(n, e, timeout));
    }
    if Tick(n, timeout).node.role.Leader? {
      TickServes(n, timeout);
      ServesSameTerm(n, Tick(n, timeout));
    }
  }
}
