/** No request is lost and none is answered twice (src/raft/node.rs): over every step
    of a leader, what was pending and what it takes in is what is pending afterwards
    and what it answers. Stepping down answers everything. */
module Requests {
  import opened Basics
  import opened Configuration
  import opened Machine
  import opened LogSpec
  import opened Messages
  import opened RaftNode
  import opened NodeInvariant
  import opened Reconfiguration
  import opened LeaderRefinement

  // ------------------------------------------------------ what is answered

  function AnswerTo(e: Envelope): multiset<Client> {
    if e.message.ClientResponse? then multiset{Client(e.to, e.message.id)} else multiset{}
  }

  /** The requests that the responses among some messages belong to. */
  ghost function Answers(out: multiset<Envelope>): multiset<Client>
    decreases |out|
  {
    if out == multiset{} then multiset{}
    else
      var e :| e in out;
      AnswerTo(e) + Answers(out - multiset{e})
  }

  lemma {:induction false} AnswersWithout(out: multiset<Envelope>, e: Envelope)
    requires e in out
    ensures Answers(out) == AnswerTo(e) + Answers(out - multiset{e})
    decreases |out|
  {
    var f :| f in out && Answers(out) == AnswerTo(f) + Answers(out - multiset{f});
    hide Answers, AnswerTo;
    if e != f {
      var rest := out - multiset{e} - multiset{f};
      assert out - multiset{f} - multiset{e} == rest;
      AnswersWithout(out - multiset{f}, e);
      AnswersWithout(out - multiset{e}, f);
      Swapped(AnswerTo(f), AnswerTo(e), Answers(rest));
    }
  }

  lemma Swapped(a: multiset<Client>, b: multiset<Client>, c: multiset<Client>)
    ensures a + (b + c) == b + (a + c)
  {
  }

  lemma AnswersOne(e: Envelope)
    ensures Answers(multiset{e}) == AnswerTo(e)
  {
    AnswersWithout(multiset{e}, e);
    assert multiset{e} - multiset{e} == multiset{};
  }

  lemma AnswersNone()
    ensures Answers(multiset{}) == multiset{}
  {
  }

  lemma {:induction false} AnswersPlus(a: multiset<Envelope>, b: multiset<Envelope>)
    ensures Answers(a + b) == Answers(a) + Answers(b)
    decreases |a|
  {
    hide Answers, AnswerTo;
    if a == multiset{} {
      AnswersNone();
      assert a + b == b;
    } else {
      var e :| e in a;
      AnswersWithout(a, e);
      AnswersWithout(a + b, e);
      assert a + b - multiset{e} == (a - multiset{e}) + b;
      AnswersPlus(a - multiset{e}, b);
    }
  }

  ghost predicate NoResponses(out: multiset<Envelope>) {
    forall e :: e in out ==> !e.message.ClientResponse?
  }

  lemma {:induction false} NoAnswers(out: multiset<Envelope>)
    requires NoResponses(out)
    ensures Answers(out) == multiset{}
    decreases |out|
  {
    if out != multiset{} {
      var e :| e in out;
      AnswersWithout(out, e);
      NoAnswers(out - multiset{e});
    }
  }

  // ------------------------------------------------------ what is pending

  function Waiting(table: map<Index, Client>, lo: Index, hi: Index): multiset<Client>
    requires lo <= hi
    decreases hi - lo
  {
    if lo == hi then multiset{}
    else (if lo in table then multiset{table[lo]} else multiset{}) + Waiting(table, lo + 1, hi)
  }

  function Readers(reads': seq<PendingRead>): multiset<Client> {
    if reads' == [] then multiset{} else multiset{reads'[0].client} + Readers(reads'[1..])
  }

  /** All requests in a leader's three tables. */
  function Owed(n: Node): multiset<Client> {
    if n.role.Leader? then
      Waiting(n.role.writes, 0, |n.log| + 1) + Waiting(n.role.membershipWrites, 0, |n.log| + 1) + Readers(n.role.pendingReads)
    else multiset{}
  }

  lemma {:induction false} WaitingSame(a: map<Index, Client>, b: map<Index, Client>, lo: Index, hi: Index)
    requires lo <= hi && forall i :: lo <= i < hi ==> (i in a <==> i in b) && (i in a ==> a[i] == b[i])
    ensures Waiting(a, lo, hi) == Waiting(b, lo, hi)
    decreases hi - lo
  {
    if lo < hi { WaitingSame(a, b, lo + 1, hi); }
  }

  lemma {:induction false} WaitingRemoved(table: map<Index, Client>, i: Index, lo: Index, hi: Index)
    requires lo <= hi
    ensures Waiting(table, lo, hi) ==
      Waiting(Remove(table, i), lo, hi) + (if lo <= i < hi then At(table, i) else multiset{})
    decreases hi - lo
  {
    hide Waiting, At, Remove;
    if lo == hi {
      NoneWaits(table, lo);
      NoneWaits(Remove(table, i), lo);
    } else {
      WaitingRemoved(table, i, lo + 1, hi);
      FirstWaits(table, lo, hi);
      FirstWaits(Remove(table, i), lo, hi);
      RemovedAt(table, i, lo);
      var rest := Waiting(Remove(table, i), lo + 1, hi);
      var there := if lo < i < hi then At(table, i) else multiset{};
      Associates(At(table, lo), rest, there);
    }
  }

  function At(table: map<Index, Client>, i: Index): multiset<Client> {
    if i in table then multiset{table[i]} else multiset{}
  }

  lemma RemovedAt(table: map<Index, Client>, i: Index, k: Index)
    ensures At(Remove(table, i), k) == if k == i then multiset{} else At(table, k)
  {
  }

  lemma NoneWaits(table: map<Index, Client>, lo: Index)
    ensures Waiting(table, lo, lo) == multiset{}
  {
  }

  lemma FirstWaits(table: map<Index, Client>, lo: Index, hi: Index)
    requires lo < hi
    ensures Waiting(table, lo, hi) == At(table, lo) + Waiting(table, lo + 1, hi)
  {
  }

  lemma Associates(a: multiset<Client>, b: multiset<Client>, c: multiset<Client>)
    ensures a + (b + c) == a + b + c && a + b == b + a && multiset{} + b == b == b + multiset{}
  {
  }

  /** One more place, with or without a request waiting there. */
  lemma {:induction false} WaitingExtended(table: map<Index, Client>, lo: Index, hi: Index)
    requires lo <= hi
    ensures Waiting(table, lo, hi + 1) == Waiting(table, lo, hi) + (if hi in table then multiset{table[hi]} else multiset{})
    decreases hi - lo
  {
    if lo < hi { WaitingExtended(table, lo + 1, hi); }
  }

  lemma {:induction false} ReadersAppended(rs: seq<PendingRead>, r: PendingRead)
    ensures Readers(rs + [r]) == Readers(rs) + multiset{r.client}
    decreases |rs|
  {
    if rs != [] {
      assert (rs + [r])[1..] == rs[1..] + [r];
      ReadersAppended(rs[1..], r);
      assert Readers(rs + [r]) == multiset{rs[0].client} + Readers((rs + [r])[1..]);
    } else {
      assert rs + [r] == [r] && [r][1..] == [];
      assert Readers([r]) == multiset{r.client} + Readers([]);
    }
  }

  // ------------------------------------------------------ keeping balance

  /** What was owed and what was taken in is owed or answered. */
  ghost predicate Balanced(n: Node, taken: multiset<Client>, r: Outcome) {
    Owed(n) + taken == Owed(r.node) + Answers(r.out)
  }

  lemma BalancedChain(n: Node, taken: multiset<Client>, r1: Outcome, r2: Outcome)
    requires Balanced(n, taken, r1) && Balanced(r1.node, multiset{}, r2)
    ensures Balanced(n, taken, r2.Also(r1.out)) && Balanced(n, taken, Outcome(r2.node, r1.out + r2.out))
  {
    hide Owed, Answers;
    AnswersPlus(r1.out, r2.out);
    AnswersPlus(r2.out, r1.out);
    assert Owed(r1.node) == Owed(r2.node) + Answers(r2.out);
    assert Owed(n) + taken == Owed(r2.node) + (Answers(r2.out) + Answers(r1.out));
    assert Answers(r2.out) + Answers(r1.out) == Answers(r1.out) + Answers(r2.out);
  }

  lemma BalancedSame(n: Node, r: Outcome)
    requires Owed(r.node) == Owed(n) && NoResponses(r.out)
    ensures Balanced(n, multiset{}, r)
  {
    NoAnswers(r.out);
  }

  /** Neither the log nor the tables differ. */
  predicate SameTables(n: Node, n': Node) {
    && n.role.Leader? && n'.role.Leader? && n'.log == n.log
    && n'.role.writes == n.role.writes && n'.role.membershipWrites == n.role.membershipWrites
    && n'.role.pendingReads == n.role.pendingReads
  }

  lemma OfferSilent(n: Node)
    requires n.role.Leader? && Ok(n)
    ensures NoResponses(Offer(n).out) && SameTables(n, Offer(n).node)
  {
  }

  lemma OfferBalanced(n: Node)
    requires n.role.Leader? && Ok(n)
    ensures Balanced(n, multiset{}, Offer(n)) && SameTables(n, Offer(n).node)
  {
    OfferSilent(n);
    hide Offer, Waiting, Readers, Ok;
    TablesOwe(n, Offer(n).node);
    BalancedSame(n, Offer(n));
  }

  lemma SendBalanced(n: Node, peer: NodeId, probe: bool)
    requires n.role.Leader? && Ok(n)
    ensures Balanced(n, multiset{}, SendAppend(n, peer, probe)) && SameTables(n, SendAppend(n, peer, probe).node)
  {
    hide Balanced, Owed;
    var r := SendAppend(n, peer, probe);
    TablesOwe(n, r.node);
    assert NoResponses(r.out);
    BalancedSame(n, r);
  }

  lemma BroadcastSilent(n: Node, m: Message)
    requires !m.ClientResponse?
    ensures NoResponses(Broadcast(n, m))
  {
  }

  lemma LongerLogOwes(n: Node, n1: Node)
    requires CanAppend(n) && n1.role.Leader? && |n1.log| == |n.log| + 1
    requires n1.role.writes == n.role.writes && n1.role.membershipWrites == n.role.membershipWrites && n1.role.pendingReads == n.role.pendingReads
    ensures Owed(n1) == Owed(n)
  {
    WaitingExtended(n.role.writes, 0, |n.log| + 1);
    WaitingExtended(n.role.membershipWrites, 0, |n.log| + 1);
  }

  lemma ProposeMembershipBalanced(n: Node, m: MembershipEntry)
    requires n.role.Leader? && Ok(n)
    ensures Balanced(n, multiset{}, ProposeMembership(n, m))
  {
    var n1 := AppendEntry(n, None, Some(m));
    var n2 := SyncProgress(n1.(membership := n1.membership.ApplyEntry(m)));
    assert Ok(n2) && LeaderOk(n2);
    LongerLogOwes(n, n2);
    OfferBalanced(n2);
    hide Owed, Offer;
  }

  // --------------------------------------------------- applying, reading

  /** The request that waits for the entry applied next, if any. */
  function Served(n: Node): multiset<Client>
    requires n.role.Leader?
  {
    var i := Applied(n.machine) + 1;
    (if i in n.role.writes then multiset{n.role.writes[i]} else multiset{})
    + (if i in n.role.membershipWrites then multiset{n.role.membershipWrites[i]} else multiset{})
  }

  lemma ApplyNextServes(n: Node)
    requires n.role.Leader? && Ok(n) && Applied(n.machine) < n.commit
    ensures Answers(ApplyNext(n).out) == Served(n)
  {
    hide Answers, Apply;
    var r := ApplyNext(n);
    AnswersNone();
    if r.out != multiset{} {
      var e :| e in r.out;
      assert r.out == multiset{e};
      AnswersOne(e);
    }
  }

  lemma ApplyNextTables(n: Node)
    requires n.role.Leader? && Ok(n) && Applied(n.machine) < n.commit
    ensures var i, n' := Applied(n.machine) + 1, ApplyNext(n).node;
      n'.role.writes == Remove(n.role.writes, i) && n'.role.membershipWrites == Remove(n.role.membershipWrites, i)
      && n'.role.pendingReads == n.role.pendingReads && n'.log == n.log && n'.commit == n.commit
  {
  }

  lemma ApplyNextBalanced(n: Node)
    requires n.role.Leader? && Ok(n) && Applied(n.machine) < n.commit
    ensures Balanced(n, multiset{}, ApplyNext(n)) && ApplyNext(n).node.commit == n.commit
  {
    ApplyNextServes(n);
    ApplyNextTables(n);
    InRange(n);
    hide ApplyNext, Ok, Answers;
    TablesServed(n, ApplyNext(n).node);
    hide Owed, Served;
  }

  lemma TablesServed(n: Node, n': Node)
    requires n.role.Leader? && n'.role.Leader? && Applied(n.machine) < |n.log| && n'.log == n.log
    requires n'.role.writes == Remove(n.role.writes, Applied(n.machine) + 1)
    requires n'.role.membershipWrites == Remove(n.role.membershipWrites, Applied(n.machine) + 1)
    requires n'.role.pendingReads == n.role.pendingReads
    ensures Owed(n) == Owed(n') + Served(n)
  {
    hide Waiting, Remove, Readers;
    var i, last := Applied(n.machine) + 1, |n.log| + 1;
    WaitingRemoved(n.role.writes, i, 0, last);
    WaitingRemoved(n.role.membershipWrites, i, 0, last);
    var a, b, rest := Waiting(n'.role.writes, 0, last), Waiting(n'.role.membershipWrites, 0, last), Readers(n.role.pendingReads);
    var x := if i in n.role.writes then multiset{n.role.writes[i]} else multiset{};
    var y := if i in n.role.membershipWrites then multiset{n.role.membershipWrites[i]} else multiset{};
    TwoTables(a, b, x, y, rest);
    assert Owed(n) == (a + x) + (b + y) + rest;
    assert Owed(n') == a + b + rest && Served(n) == x + y;
  }

  lemma TwoTables(a: multiset<Client>, b: multiset<Client>, x: multiset<Client>, y: multiset<Client>, rest: multiset<Client>)
    ensures (a + x) + (b + y) + rest == (a + b + rest) + (x + y)
  {
  }

  lemma InRange(n: Node)
    requires Ok(n)
    ensures Applied(n.machine) <= n.commit <= |n.log|
  {
  }

  lemma {:induction false} ApplyAllBalanced(n: Node)
    requires n.role.Leader? && Ok(n)
    ensures Balanced(n, multiset{}, ApplyAll(n))
    decreases n.commit - Applied(n.machine)
  {
    hide ApplyNext, Owed, Balanced;
    if Applied(n.machine) < n.commit {
      var r := ApplyNext(n);
      ApplyNextBalanced(n);
      ApplyAllBalanced(r.node);
      BalancedChain(n, multiset{}, r, ApplyAll(r.node));
    } else {
      BalancedSame(n, Stay(n));
    }
  }

  lemma PopBalanced(n: Node)
    requires n.role.Leader? && n.role.pendingReads != []
    ensures Balanced(n, multiset{}, Outcome(n.(role := n.role.(pendingReads := n.role.pendingReads[1..])), multiset{AnswerRead(n, n.role.pendingReads[0])}))
  {
    var rs := n.role.pendingReads;
    AnswersOne(AnswerRead(n, rs[0]));
    PopOwed(n);
    hide Answers, Owed, AnswerRead;
  }

  lemma FirstReader(rs: seq<PendingRead>)
    requires rs != []
    ensures Readers(rs) == multiset{rs[0].client} + Readers(rs[1..])
  {
  }

  lemma PopOwed(n: Node)
    requires n.role.Leader? && n.role.pendingReads != []
    ensures Owed(n) == Owed(n.(role := n.role.(pendingReads := n.role.pendingReads[1..]))) + multiset{n.role.pendingReads[0].client}
  {
    hide Waiting, Readers;
    var rs, last := n.role.pendingReads, |n.log| + 1;
    FirstReader(rs);
    SumOfThree(Waiting(n.role.writes, 0, last), Waiting(n.role.membershipWrites, 0, last), Readers(rs[1..]), rs[0].client);
  }

  lemma {:induction false} AnswerReadsBalanced(n: Node)
    requires n.role.Leader? && Ok(n)
    ensures Balanced(n, multiset{}, AnswerReads(n))
    decreases |n.role.pendingReads|
  {
    hide Balanced, AnswerRead, Owed;
    if n.role.pendingReads == [] || !CanRead(n) || !Confirmed(n, n.role.pendingReads[0].serial) {
      BalancedSame(n, Stay(n));
    } else {
      var n1 := n.(role := n.role.(pendingReads := n.role.pendingReads[1..]));
      PopBalanced(n);
      AnswerReadsBalanced(n1);
      BalancedChain(n, multiset{}, Outcome(n1, multiset{AnswerRead(n, n.role.pendingReads[0])}), AnswerReads(n1));
    }
  }

  lemma SyncOwes(n: Node, r: Outcome)
    requires r.node.role.Leader? && Balanced(n, multiset{}, r)
    ensures Balanced(n, multiset{}, Outcome(SyncProgress(r.node), r.out))
  {
    hide Waiting, Answers;
  }

  lemma {:induction false} AfterConfigurationsBalanced(n: Node, ms: seq<MembershipEntry>)
    requires n.role.Leader? && Ok(n)
    ensures Balanced(n, multiset{}, AfterConfigurations(n, ms).outcome)
    decreases |ms|
  {
    hide ProposeMembership, Balanced, Owed;
    BalancedSame(n, Stay(n));
    if ms != [] {
      var r := if ms[0].Joint? then ProposeMembership(n, Simple(ms[0].incoming)) else Stay(n);
      if ms[0].Joint? { ProposeMembershipBalanced(n, Simple(ms[0].incoming)); }
      SyncOwes(n, r);
      var n1 := SyncProgress(r.node);
      AfterConfigurationsBalanced(n1, ms[1..]);
      BalancedChain(n, multiset{}, Outcome(n1, r.out), AfterConfigurations(n1, ms[1..]).outcome);
    }
  }

  lemma CommitBalanced(n: Node)
    requires n.role.Leader? && Ok(n)
    ensures Balanced(n, multiset{}, CommitAndApply(n).outcome)
  {
    hide ApplyAll, AfterConfigurations, AnswerReads, Configurations, CommitTarget, Owed, Balanced;
    var target := CommitTarget(n, |n.log|);
    BalancedSame(n, Stay(n));
    if target > n.commit {
      var n1 := n.(commit := target);
      var r1 := ApplyAll(n1);
      var r2 := AfterConfigurations(r1.node, Configurations(n.log, Applied(n.machine), target)).outcome;
      var r3 := if TermAt(n.log, n.commit) != n.term then AnswerReads(r2.node) else Stay(r2.node);
      ApplyAllBalanced(n1);
      OwedAtCommit(n, target, r1);
      AfterConfigurationsBalanced(r1.node, Configurations(n.log, Applied(n.machine), target));
      AnswerReadsBalanced(r2.node);
      BalancedSame(r2.node, Stay(r2.node));
      BalancedChain(n, multiset{}, r1, r2);
      BalancedChain(n, multiset{}, Outcome(r2.node, r1.out + r2.out), r3);
    }
  }

  lemma OwedAtCommit(n: Node, target: Index, r: Outcome)
    requires n.role.Leader? && Balanced(n.(commit := target), multiset{}, r)
    ensures Balanced(n, multiset{}, r)
  {
  }

  // ------------------------------------------------- responses of peers

  lemma TablesOwe(n: Node, n': Node)
    requires SameTables(n, n')
    ensures Owed(n') == Owed(n)
  {
    hide Waiting, Readers;
  }

  lemma MatchBalanced(n: Node, peer: NodeId, index: Index)
    requires n.role.Leader? && Ok(n) && peer in n.role.progress && index <= |n.log|
    ensures Balanced(n, multiset{}, OnMatch(n, peer, index).outcome)
  {
    hide CommitAndApply, Owed;
    if index > n.role.progress[peer].matchIndex {
      var n1 := SetProgress(n, peer, n.role.progress[peer].Advance(index));
      TablesOwe(n, n1);
      CommitBalanced(n1);
    } else {
      BalancedSame(n, Stay(n));
    }
  }

  lemma ProbeBalanced(n: Node, peer: NodeId, next: Index)
    requires n.role.Leader? && Ok(n) && peer in n.role.progress
    ensures Balanced(n, multiset{}, Probe(n, peer, next))
  {
    hide SendAppend, Owed;
    var n1 := SetProgress(n, peer, n.role.progress[peer].Regress(next));
    TablesOwe(n, n1);
    SendBalanced(n1, peer, true);
  }

  lemma ReadAckBalanced(n: Node, peer: NodeId, serial: nat)
    requires n.role.Leader? && Ok(n) && peer in n.role.progress
    ensures Balanced(n, multiset{}, OnReadAck(n, peer, serial))
  {
    hide AnswerReads, Owed;
    if serial > n.role.progress[peer].readSeq {
      var n1 := SetProgress(n, peer, n.role.progress[peer].AdvanceRead(serial));
      TablesOwe(n, n1);
      AnswerReadsBalanced(n1);
    } else {
      BalancedSame(n, Stay(n));
    }
  }

  lemma NotedBalanced(n: Node, from: NodeId, r: Outcome)
    requires n.role.Leader? && Balanced(NotePeer(n, from), multiset{}, r)
    ensures Balanced(n, multiset{}, r)
  {
    TablesOwe(n, NotePeer(n, from));
    hide Owed;
  }

  lemma HeartbeatResponseBalanced(n: Node, e: Envelope)
    requires n.role.Leader? && Ok(n) && e.message.HeartbeatResponse? && OnHeartbeatResponse(n, e).outcome.node.role.Leader?
    ensures Balanced(n, multiset{}, OnHeartbeatResponse(n, e).outcome)
  {
    hide OnMatch, OnReadAck, Probe, Balanced, Owed;
    var m := e.message;
    BalancedSame(n, Stay(n));
    if e.from in n.role.progress {
      var n1 := NotePeer(n, e.from);
      var r2 := OnReadAck(n1, e.from, m.readSeq);
      var r3 := if m.matchIndex != 0 then Stay(r2.node) else Probe(r2.node, e.from, |n1.log|);
      var r4 := OnMatch(r3.node, e.from, m.matchIndex).outcome;
      ReadAckBalanced(n1, e.from, m.readSeq);
      BalancedSame(r2.node, Stay(r2.node));
      ProbeBalanced(r2.node, e.from, |n1.log|);
      BalancedChain(n1, multiset{}, r2, r3);
      MatchBalanced(r3.node, e.from, m.matchIndex);
      BalancedChain(n1, multiset{}, Outcome(r3.node, r2.out + r3.out), r4);
      NotedBalanced(n, e.from, r4.Also(r2.out + r3.out));
    }
  }

  lemma AppendResponseBalanced(n: Node, e: Envelope)
    requires n.role.Leader? && Ok(n) && e.message.AppendResponse? && OnAppendResponse(n, e).outcome.node.role.Leader?
    ensures Balanced(n, multiset{}, OnAppendResponse(n, e).outcome)
  {
    hide OnMatch, SendAppend, Probe, Balanced, Owed;
    var m := e.message;
    BalancedSame(n, Stay(n));
    if e.from in n.role.progress {
      var n1 := NotePeer(n, e.from);
      if m.matchIndex > 0 {
        var r2 := OnMatch(n1, e.from, m.matchIndex).outcome;
        var r3 := SendAppend(r2.node, e.from, false);
        MatchBalanced(n1, e.from, m.matchIndex);
        SendBalanced(r2.node, e.from, false);
        BalancedChain(n1, multiset{}, r2, r3);
        NotedBalanced(n, e.from, r3.Also(r2.out));
      } else {
        ProbeBalanced(n1, e.from, m.rejectIndex);
        NotedBalanced(n, e.from, Probe(n1, e.from, m.rejectIndex));
        BalancedSame(n1, Stay(n1));
        NotedBalanced(n, e.from, Stay(n1));
      }
    }
  }

  // --------------------------------------------------------- requests

  lemma AloneBalanced(n: Node, taken: multiset<Client>, r: Outcome)
    requires r.node.role.Leader? && Ok(r.node) && Balanced(n, taken, r)
    ensures Balanced(n, taken, CommitIfAlone(r).outcome)
  {
    hide CommitAndApply, Balanced, Owed;
    CommitBalanced(r.node);
    BalancedChain(n, taken, r, CommitAndApply(r.node).outcome);
  }

  /** The tables after a request was put to wait at the new last index. */
  lemma WaitingNow(n: Node, n1: Node, client: Client)
    requires CanAppend(n) && n1.role.Leader? && |n1.log| == |n.log| + 1 && n1.role.pendingReads == n.role.pendingReads
    requires (n1.role.writes == n.role.writes[|n1.log| := client] && n1.role.membershipWrites == n.role.membershipWrites)
      || (n1.role.writes == n.role.writes && n1.role.membershipWrites == n.role.membershipWrites[|n1.log| := client])
    ensures Owed(n1) == Owed(n) + multiset{client}
  {
    hide Waiting, Readers, CanAppend;
    var last := |n.log| + 1;
    NotWaitingYet(n);
    WaitsAtEnd(n.role.writes, client, last);
    WaitsAtEnd(n.role.membershipWrites, client, last);
    SumOfThree(Waiting(n.role.writes, 0, last), Waiting(n.role.membershipWrites, 0, last), Readers(n.role.pendingReads), client);
  }

  lemma WaitsAtEnd(table: map<Index, Client>, client: Client, last: Index)
    requires last !in table
    ensures Waiting(table, 0, last + 1) == Waiting(table, 0, last)
    ensures Waiting(table[last := client], 0, last + 1) == Waiting(table, 0, last) + multiset{client}
  {
    hide Waiting;
    WaitingExtended(table, 0, last);
    WaitingExtended(table[last := client], 0, last);
    WaitingSame(table, table[last := client], 0, last);
  }

  lemma NotWaitingYet(n: Node)
    requires CanAppend(n)
    ensures n.role.Leader? && |n.log| + 1 !in n.role.writes && |n.log| + 1 !in n.role.membershipWrites
  {
  }

  lemma SumOfThree(a: multiset<Client>, b: multiset<Client>, c: multiset<Client>, x: Client)
    ensures a + multiset{x} + b + c == a + b + c + multiset{x} && a + (b + multiset{x}) + c == a + b + c + multiset{x}
    ensures a + b + (multiset{x} + c) == a + b + c + multiset{x}
  {
  }

  lemma SilentlyTaken(n: Node, taken: multiset<Client>, r: Outcome)
    requires Owed(r.node) == Owed(n) + taken && NoResponses(r.out)
    ensures Balanced(n, taken, r)
  {
    NoAnswers(r.out);
    hide Owed, Answers;
  }

  lemma WriteTaken(n: Node, client: Client, request: Request)
    requires n.role.Leader? && Ok(n) && (request.WriteRequest? || request.SessionRequest?)
    ensures Balanced(n, multiset{client}, OnWrite(n, client, request).outcome)
  {
    var r := Propose(n, Some(CommandOf(request)));
    var n1 := r.node.(role := r.node.role.(writes := r.node.role.writes[|r.node.log| := client]));
    WriteFrame(n, client, request);
    OfferSilent(AppendEntry(n, Some(CommandOf(request)), None));
    hide OnWrite, CommitIfAlone, Offer, Answers, Owed;
    WaitingNow(n, n1, client);
    SilentlyTaken(n, multiset{client}, Outcome(n1, r.out));
    AloneBalanced(n, multiset{client}, Outcome(n1, r.out));
  }

  lemma ChangeTaken(n: Node, client: Client, voters: set<NodeId>)
    requires n.role.Leader? && Ok(n)
    ensures Balanced(n, multiset{client}, OnRequest(n, client, ChangeMembership(voters)).outcome)
  {
    hide OnRequest, CommitIfAlone, ProposeMembership, Answers, Owed, Balanced;
    var error := ChangeError(n, voters);
    if error.Some? {
      ChangeRefused(n, client, voters);
      RespondTaken(n, client, Failed(InvalidInput(error.value)));
    } else {
      var m := Joint(n.membership.active.config, Membership(voters));
      var r := ProposeMembership(n, m);
      var n1 := r.node.(role := r.node.role.(membershipWrites := r.node.role.membershipWrites[|r.node.log| := client]));
      ChangeFrame(n, client, voters);
      ProposalSilent(n, m);
      WaitingNow(n, n1, client);
      SilentlyTaken(n, multiset{client}, Outcome(n1, r.out));
      AloneBalanced(n, multiset{client}, Outcome(n1, r.out));
    }
  }

  lemma ChangeRefused(n: Node, client: Client, voters: set<NodeId>)
    requires n.role.Leader? && Ok(n) && ChangeError(n, voters).Some?
    ensures OnRequest(n, client, ChangeMembership(voters)).outcome
      == Outcome(n, multiset{Respond(n, client, Failed(InvalidInput(ChangeError(n, voters).value)))})
  {
    hide CommitIfAlone, ProposeMembership, ChangeError;
  }

  lemma ProposalSilent(n: Node, m: MembershipEntry)
    requires n.role.Leader? && Ok(n)
    ensures var r := ProposeMembership(n, m);
      NoResponses(r.out) && |r.node.log| == |n.log| + 1
      && r.node.role.writes == n.role.writes && r.node.role.membershipWrites == n.role.membershipWrites
      && r.node.role.pendingReads == n.role.pendingReads
  {
  }

  /** A request that is answered at once. */
  lemma RespondTaken(n: Node, client: Client, response: Response)
    requires n.role.Leader?
    ensures Balanced(n, multiset{client}, Outcome(n, multiset{Respond(n, client, response)}))
  {
    AnswersOne(Respond(n, client, response));
    hide Owed, Answers;
  }

  lemma ReadValue(n: Node, client: Client, query: ReadCommand)
    requires n.role.Leader? && Ok(n)
    ensures var n1 := Queued(n, client, query);
      Ok(n1) && OnRequest(n, client, ReadRequest(query)).outcome ==
        (if ClusterSize(n1) == 1 then AnswerReads(n1) else Stay(n1)).Also(Broadcast(n1, Message.Read(n1.role.readSeq)))
  {
    hide AnswerReads, Broadcast, CommitIfAlone;
  }

  lemma ReadTaken(n: Node, client: Client, query: ReadCommand)
    requires n.role.Leader? && Ok(n)
    ensures Balanced(n, multiset{client}, OnRequest(n, client, ReadRequest(query)).outcome)
  {
    hide OnRequest, AnswerReads, Broadcast, Owed, Answers, Balanced, Ok;
    ReadValue(n, client, query);
    var n1 := Queued(n, client, query);
    var ask := Outcome(n1, Broadcast(n1, Message.Read(n1.role.readSeq)));
    ReadersAppended(n.role.pendingReads, PendingRead(n.role.readSeq + 1, client, query));
    BroadcastSilent(n1, Message.Read(n1.role.readSeq));
    QueuedTaken(n, n1, client);
    SilentlyTaken(n, multiset{client}, ask);
    AnswerReadsBalanced(n1);
    BalancedSame(n1, Stay(n1));
    BalancedChain(n, multiset{client}, ask, if ClusterSize(n1) == 1 then AnswerReads(n1) else Stay(n1));
  }

  lemma QueuedTaken(n: Node, n1: Node, client: Client)
    requires n.role.Leader? && n1.role.Leader? && n1.log == n.log
    requires n1.role.writes == n.role.writes && n1.role.membershipWrites == n.role.membershipWrites
    requires Readers(n1.role.pendingReads) == Readers(n.role.pendingReads) + multiset{client}
    ensures Owed(n1) == Owed(n) + multiset{client}
  {
    hide Waiting, Readers;
  }

  lemma RequestTaken(n: Node, client: Client, request: Request)
    requires n.role.Leader? && Ok(n)
    ensures Balanced(n, multiset{client}, OnRequest(n, client, request).outcome)
  {
    hide Balanced, OnWrite, ProposeMembership, CommitIfAlone, AnswerReads, LeaderOk;
    match request
    case ReadRequest(query) => ReadTaken(n, client, query);
    case StatusRequest => RespondTaken(n, client, Status(n));
    case ChangeMembership(voters) => ChangeTaken(n, client, voters);
    case _ => WriteTaken(n, client, request);
  }

  // ----------------------------------------------------- stepping down

  lemma {:induction false} TableAborted(n: Node, table: map<Index, Client>, lo: Index, hi: Index)
    requires lo <= hi
    ensures Answers(AbortTable(n, table, lo, hi)) == Waiting(table, lo, hi)
    ensures forall e :: e in AbortTable(n, table, lo, hi) ==> e.message.ClientResponse? && e.message.response == Failed(Abort)
    decreases hi - lo
  {
    hide Answers;
    if lo == hi { AnswersNone(); }
    else {
      var first := if lo in table then multiset{Respond(n, table[lo], Failed(Abort))} else multiset{};
      if lo in table { AnswersOne(Respond(n, table[lo], Failed(Abort))); } else { AnswersNone(); }
      TableAborted(n, table, lo + 1, hi);
      AnswersPlus(first, AbortTable(n, table, lo + 1, hi));
    }
  }

  lemma {:induction false} ReadsAborted(n: Node, rs: seq<PendingRead>)
    ensures Answers(AbortReads(n, rs)) == Readers(rs)
    ensures forall e :: e in AbortReads(n, rs) ==> e.message.ClientResponse? && e.message.response == Failed(Abort)
    decreases |rs|
  {
    hide Answers;
    if rs == [] { AnswersNone(); }
    else {
      AnswersOne(Respond(n, rs[0].client, Failed(Abort)));
      ReadsAborted(n, rs[1..]);
      AnswersPlus(multiset{Respond(n, rs[0].client, Failed(Abort))}, AbortReads(n, rs[1..]));
    }
  }

  /** Stepping down answers every pending request of all three tables, with one Abort each. */
  lemma StepDownAborts(n: Node, term: Term, timeout: Ticks)
    requires n.role.Leader?
    ensures var r := StepDown(n, term, timeout);
      Answers(r.out) == Owed(n) && Owed(r.node) == multiset{}
      && forall e :: e in r.out ==> e.message.ClientResponse? && e.message.response == Failed(Abort)
  {
    hide Answers, AbortTable, AbortReads, Waiting, Readers;
    var n1 := if term > n.term then n.(term := term, vote := None) else n;
    var a, b, c := AbortTable(n1, n.role.writes, 0, |n.log| + 1), AbortTable(n1, n.role.membershipWrites, 0, |n.log| + 1), AbortReads(n1, n.role.pendingReads);
    TableAborted(n1, n.role.writes, 0, |n.log| + 1);
    TableAborted(n1, n.role.membershipWrites, 0, |n.log| + 1);
    ReadsAborted(n1, n.role.pendingReads);
    AnswersPlus(a, b);
    AnswersPlus(a + b, c);
  }

  /** A node that has just lost its leader answers a request at once and nothing else. */
  lemma LeaderlessAnswers(n: Node, e: Envelope)
    requires n.role.Follower? && n.role.leader.None? && n.role.forwarded == {} && Ok(n)
    ensures Answers(FollowerAtTerm(n, e).out) == if e.message.ClientRequest? then multiset{Client(e.from, e.message.id)} else multiset{}
    ensures !FollowerAtTerm(n, e).node.role.Leader?
  {
    var r := FollowerAtTerm(n, e);
    FollowerNeverLeads(n, e);
    if e.message.ClientRequest? {
      AnswersOne(Send(n, e.from, ClientResponse(e.message.id, Failed(Abort))));
    } else {
      LeaderlessSilent(n, e);
      NoAnswers(r.out);
    }
    hide Answers;
  }

  lemma LeaderlessSilent(n: Node, e: Envelope)
    requires n.role.Follower? && n.role.leader.None? && n.role.forwarded == {} && Ok(n) && !e.message.ClientRequest?
    ensures NoResponses(FollowerAtTerm(n, e).out)
  {
    hide OnHeartbeat, OnAppend;
    assert NoResponses(AbortForwarded(n));
    if e.message.Heartbeat? { LeaderlessHeartbeat(n, e); }
    if e.message.Append? { LeaderlessAppend(n, e); }
  }

  lemma LeaderlessHeartbeat(n: Node, e: Envelope)
    requires n.role.Follower? && n.role.leader.None? && n.role.forwarded == {} && Ok(n) && e.message.Heartbeat?
    ensures NoResponses(OnHeartbeat(n, e).out)
  {
    hide MaybeApply;
    assert NoResponses(AbortForwarded(n));
  }

  lemma LeaderlessAppend(n: Node, e: Envelope)
    requires n.role.Follower? && n.role.leader.None? && n.role.forwarded == {} && Ok(n) && e.message.Append?
    ensures NoResponses(OnAppend(n, e).out)
  {
    hide Splice, AdoptMembership;
    assert NoResponses(AbortForwarded(n));
  }

  // --------------------------------------------------- every step

  /** The request that a leader takes in with a message: any request of its own term,
      or of a later one, from a node it knows. */
  function Taken(n: Node, e: Envelope): multiset<Client> {
    if e.message.ClientRequest? && e.term >= n.term && KnownSender(n, e.from) then multiset{Client(e.from, e.message.id)}
    else multiset{}
  }

  lemma ReadResponseBalanced(n: Node, e: Envelope)
    requires n.role.Leader? && Ok(n) && e.message.ReadResponse?
    ensures Balanced(n, multiset{}, LeaderAtTerm(n, e).outcome)
  {
    hide OnReadAck, Balanced, Owed;
    if e.from in n.role.progress {
      ReadAckBalanced(NotePeer(n, e.from), e.from, e.message.readSeq);
      NotedBalanced(n, e.from, OnReadAck(NotePeer(n, e.from), e.from, e.message.readSeq));
    } else {
      BalancedSame(n, Stay(n));
    }
  }

  lemma QuietBalanced(n: Node, e: Envelope)
    requires n.role.Leader? && Ok(n) && LeaderAtTerm(n, e).outcome.node.role.Leader?
    requires var m := e.message; !(m.HeartbeatResponse? || m.AppendResponse? || m.ReadResponse? || m.ClientRequest?)
    ensures Balanced(n, multiset{}, LeaderAtTerm(n, e).outcome)
  {
    assert LeaderAtTerm(n, e).outcome.node == n && NoResponses(LeaderAtTerm(n, e).outcome.out);
    BalancedSame(n, LeaderAtTerm(n, e).outcome);
  }

  lemma AtTermBalanced(n: Node, e: Envelope)
    requires n.role.Leader? && Ok(n) && LeaderAtTerm(n, e).outcome.node.role.Leader?
    ensures Balanced(n, if e.message.ClientRequest? then multiset{Client(e.from, e.message.id)} else multiset{}, LeaderAtTerm(n, e).outcome)
  {
    hide OnHeartbeatResponse, OnAppendResponse, OnReadAck, OnRequest, Balanced, Owed;
    match e.message
    case HeartbeatResponse(_, _) => HeartbeatResponseBalanced(n, e);
    case AppendResponse(_, _) => AppendResponseBalanced(n, e);
    case ReadResponse(_) => ReadResponseBalanced(n, e);
    case ClientRequest(id, request) => RequestTaken(n, Client(e.from, id), request);
    case _ => QuietBalanced(n, e);
  }

  lemma StepDownBalanced(n: Node, term: Term, timeout: Ticks)
    requires n.role.Leader?
    ensures Balanced(n, multiset{}, StepDown(n, term, timeout))
  {
    StepDownAborts(n, term, timeout);
    hide Owed, Answers, StepDown;
  }

  /** A later term: everything pending is aborted, and a request is turned away. */
  lemma LaterTermBalanced(n: Node, e: Envelope, timeout: Ticks)
    requires n.role.Leader? && Ok(n)
    ensures Ok(StepDown(n, e.term, timeout).node)
    ensures var r := StepDown(n, e.term, timeout);
      Balanced(n, if e.message.ClientRequest? then multiset{Client(e.from, e.message.id)} else multiset{},
               FollowerAtTerm(r.node, e).Also(r.out))
  {
    var r := StepDown(n, e.term, timeout);
    StepDownAborts(n, e.term, timeout);
    StepDownOk(n, e.term, timeout);
    LeaderlessAnswers(r.node, e);
    var f := FollowerAtTerm(r.node, e);
    AnswersPlus(f.out, r.out);
    assert Owed(f.node) == multiset{};
    hide Owed, Answers, StepDown, FollowerAtTerm;
  }

  lemma StepDownOk(n: Node, term: Term, timeout: Ticks)
    requires n.role.Leader? && Ok(n)
    ensures var f := StepDown(n, term, timeout).node;
      Ok(f) && f.role == Follower(None, 0, timeout, {})
  {
    hide AbortTable, AbortReads;
  }

  /** Over every step of a leader, whatever the message: what was owed and what is
      taken in is what is owed afterwards and what is answered. Only a panic, which
      ends the process, leaves requests unanswered. */
  lemma StepConserves(n: Node, e: Envelope, timeout: Ticks)
    requires n.role.Leader? && Ok(n) && !Step(n, e, timeout).node.role.Halted?
    ensures Owed(n) + Taken(n, e) == Owed(Step(n, e, timeout).node) + Answers(Step(n, e, timeout).out)
  {
    hide Owed, Answers, LeaderAtTerm, FollowerAtTerm, StepDown, Ok;
    if KnownSender(n, e.from) {
      if IsPreVote(e.message) || e.term < n.term {
        QuietStep(n, e, timeout);
        BalancedSame(n, LeaderStep(n, e, timeout));
      } else {
        LeaderStepValue(n, e, timeout);
        if e.term > n.term {
          LaterTermBalanced(n, e, timeout);
        } else {
          OwnTermBalanced(n, e, timeout);
        }
      }
    } else {
      BalancedSame(n, Stay(n));
    }
  }

  lemma QuietStep(n: Node, e: Envelope, timeout: Ticks)
    requires n.role.Leader? && Ok(n) && (IsPreVote(e.message) || e.term < n.term)
    ensures LeaderStep(n, e, timeout).node == n && NoResponses(LeaderStep(n, e, timeout).out)
    ensures Taken(n, e) == multiset{}
  {
    hide LeaderAtTerm, FollowerAtTerm, StepDown;
  }

  lemma OwnTermBalanced(n: Node, e: Envelope, timeout: Ticks)
    requires n.role.Leader? && Ok(n) && e.term == n.term && !IsPreVote(e.message)
    requires !LeaderStep(n, e, timeout).node.role.Halted?
    ensures Balanced(n, if e.message.ClientRequest? then multiset{Client(e.from, e.message.id)} else multiset{}, LeaderStep(n, e, timeout))
  {
    hide Owed, Answers, LeaderAtTerm, FollowerAtTerm, StepDown, Ok, Balanced;
    var r := LeaderAtTerm(n, e);
    LeaderStepValue(n, e, timeout);
    AtTermBalanced(n, e);
    if r.stepDown {
      StepDownBalanced(r.outcome.node, r.outcome.node.term, timeout);
      BalancedChain(n, if e.message.ClientRequest? then multiset{Client(e.from, e.message.id)} else multiset{},
                    r.outcome, StepDown(r.outcome.node, r.outcome.node.term, timeout));
    }
  }

  lemma AnnouncedBalanced(n: Node)
    requires n.role.Leader? && Ok(n)
    ensures Balanced(n, multiset{}, MaybeAnnounce(Ticked(n)))
  {
    AnnounceSilent(Ticked(n));
    hide Waiting, Readers, Announce, Ok;
    TablesOwe(n, Ticked(n));
    TablesOwe(Ticked(n), MaybeAnnounce(Ticked(n)).node);
    hide Owed;
    BalancedSame(n, MaybeAnnounce(Ticked(n)));
  }

  lemma TickConserves(n: Node, timeout: Ticks)
    requires n.role.Leader? && Ok(n)
    ensures Owed(n) == Owed(Tick(n, timeout).node) + Answers(Tick(n, timeout).out)
  {
    hide Owed, Answers, StepDown, LeaderTick, Announce, Balanced, Ok;
    LeaderTickValue(n, timeout);
    AnnouncedBalanced(n);
    var r := MaybeAnnounce(Ticked(n));
    if Tick(n, timeout) != r {
      StepDownBalanced(r.node, r.node.term, timeout);
      BalancedChain(n, multiset{}, r, StepDown(r.node, r.node.term, timeout));
    }
    Unfolded(n, multiset{}, Tick(n, timeout));
  }

  lemma Unfolded(n: Node, taken: multiset<Client>, r: Outcome)
    requires Balanced(n, taken, r)
    ensures Owed(n) + taken == Owed(r.node) + Answers(r.out)
  {
  }

  lemma AnnounceSilent(n: Node)
    requires n.role.Leader? && Ok(n)
    ensures SameTables(n, MaybeAnnounce(n).node) && NoResponses(MaybeAnnounce(n).out)
  {
  }

  // --------------------------------------------------- a whole reign

  function Output(n: Node, input: Input): multiset<Envelope>
    requires Ok(n)
  {
    match input
    case Message(e, timeout) => Step(n, e, timeout).out
    case Clock(timeout) => Tick(n, timeout).out
  }

  function TakenBy(n: Node, input: Input): multiset<Client> {
    if input.Message? then Taken(n, input.envelope) else multiset{}
  }

  function TakenSoFar(ns: seq<Node>, inputs: seq<Input>, i: nat): multiset<Client>
    requires i <= |inputs| < |ns|
  {
    if i == 0 then multiset{} else TakenSoFar(ns, inputs, i - 1) + TakenBy(ns[i - 1], inputs[i - 1])
  }

  ghost function AnsweredSoFar(ns: seq<Node>, inputs: seq<Input>, i: nat): multiset<Client>
    requires i <= |inputs| < |ns| && forall j :: 0 <= j < |ns| ==> Ok(ns[j])
  {
    if i == 0 then multiset{} else AnsweredSoFar(ns, inputs, i - 1) + Answers(Output(ns[i - 1], inputs[i - 1]))
  }

  lemma InputConserves(n: Node, input: Input)
    requires n.role.Leader? && Ok(n) && !After(n, input).role.Halted?
    ensures Owed(n) + TakenBy(n, input) == Owed(After(n, input)) + Answers(Output(n, input))
  {
    hide Owed, Answers, Taken, Step, Tick, Ok;
    match input
    case Message(e, timeout) => StepConserves(n, e, timeout);
    case Clock(timeout) => TickConserves(n, timeout);
  }

  lemma Totals(start: multiset<Client>, taken: multiset<Client>, owed: multiset<Client>, answered: multiset<Client>,
               more: multiset<Client>, left: multiset<Client>, out: multiset<Client>)
    requires start + taken == owed + answered && owed + more == left + out
    ensures start + (taken + more) == left + (answered + out) && start + taken + more == left + (answered + out)
  {
    forall c ensures (start + (taken + more))[c] == (left + (answered + out))[c] {
      assert (start + taken)[c] == (owed + answered)[c] && (owed + more)[c] == (left + out)[c];
    }
    assert start + (taken + more) == left + (answered + out);
  }

  /** In office, every request ever taken in has been answered once or is pending once. */
  lemma {:induction false} ReignConserves(ns: seq<Node>, inputs: seq<Input>, i: nat)
    requires Office(ns, inputs) && i < |ns|
    ensures Owed(ns[0]) + TakenSoFar(ns, inputs, i) == Owed(ns[i]) + AnsweredSoFar(ns, inputs, i)
  {
    hide Owed, Answers, TakenBy, After, Output, Ok;
    if i > 0 {
      ReignConserves(ns, inputs, i - 1);
      var n, input := ns[i - 1], inputs[i - 1];
      assert ns[i] == After(n, input);
      InputConserves(n, input);
      Totals(Owed(ns[0]), TakenSoFar(ns, inputs, i - 1), Owed(n), AnsweredSoFar(ns, inputs, i - 1),
             TakenBy(n, input), Owed(ns[i]), Answers(Output(n, input)));
    } else {
      assert TakenSoFar(ns, inputs, 0) == multiset{} == AnsweredSoFar(ns, inputs, 0);
    }
  }

  lemma NothingOwed(n: Node)
    requires !n.role.Leader?
    ensures Owed(n) == multiset{}
  {
  }

  /** And leaving office answers the rest. */
  lemma LeavingAnswersAll(ns: seq<Node>, inputs: seq<Input>, last: Input)
    requires Office(ns, inputs) && !After(ns[|inputs|], last).role.Leader? && !After(ns[|inputs|], last).role.Halted?
    ensures Owed(ns[0]) + TakenSoFar(ns, inputs, |inputs|) + TakenBy(ns[|inputs|], last)
      == AnsweredSoFar(ns, inputs, |inputs|) + Answers(Output(ns[|inputs|], last))
  {
    hide Owed, Answers, TakenBy, After, Output, Ok;
    var n := ns[|inputs|];
    NothingOwed(After(n, last));
    ReignConserves(ns, inputs, |inputs|);
    InputConserves(n, last);
    Totals(Owed(ns[0]), TakenSoFar(ns, inputs, |inputs|), Owed(n), AnsweredSoFar(ns, inputs, |inputs|),
           TakenBy(n, last), multiset{}, Answers(Output(n, last)));
  }
}
