/** Client sessions: every command takes effect once (src/raft/session.rs,
    src/raft/kv.rs), and a snapshot stands for the log it was taken from. */
module Sessions {
  import opened Basics
  import opened Machine

  // ----------------------------------------------- what clients are promised

  predicate FromClient(entry: Entry, client: ClientId) {
    entry.command.Some? && entry.command.value.Session? && entry.command.value.client == client
  }

  function SerialOf(entry: Entry): nat
    requires entry.command.Some? && entry.command.value.Session?
  {
    entry.command.value.serial
  }

  /** The serial number exceeds every earlier one of its client in the log. */
  predicate Exceeds(log: seq<Entry>, client: ClientId, serial: nat) {
    forall j :: 0 <= j < |log| && FromClient(log[j], client) ==> SerialOf(log[j]) < serial
  }

  /** The entry is to take effect after this log. */
  predicate TakesEffect(log: seq<Entry>, entry: Entry) {
    && entry.command.Some?
    && (entry.command.value.Session? ==> Exceeds(log, entry.command.value.client, entry.command.value.serial))
  }

  /** The data that comes of running exactly the entries that are to take effect. */
  function Effects(log: seq<Entry>): map<string, string> {
    if log == [] then map[]
    else
      var front, last := log[..|log| - 1], log[|log| - 1];
      if TakesEffect(front, last) then Effects(front)[last.command.value.put.key := last.command.value.put.value]
      else Effects(front)
  }

  /** Entry j is the latest of its client to have taken effect. */
  predicate Latest(log: seq<Entry>, client: ClientId, j: int) {
    && 0 <= j < |log| && FromClient(log[j], client) && TakesEffect(log[..j], log[j])
    && forall i :: j < i < |log| && FromClient(log[i], client) ==> SerialOf(log[i]) <= SerialOf(log[j])
  }

  // ---------------------------------------------------- exactly once

  /** The session table remembers the latest entry of every client that took effect,
      and what it answered. */
  lemma {:induction false} TableIsLatest(log: seq<Entry>, client: ClientId)
    requires Indexed(log)
    ensures client in Replay(log).sessions <==> exists j :: 0 <= j < |log| && FromClient(log[j], client)
    ensures client in Replay(log).sessions ==>
      exists j :: Latest(log, client, j) && Replay(log).sessions[client] == Cached(SerialOf(log[j]), PutAt(j + 1))
  {
    if log != [] {
      var front, last := log[..|log| - 1], log[|log| - 1];
      TableIsLatest(front, client);
      if client in Replay(front).sessions {
        var j :| Latest(front, client, j) && Replay(front).sessions[client] == Cached(SerialOf(front[j]), PutAt(j + 1));
        LatestIsGreatest(front, client, j);
        TableStep(log, client, j);
      } else {
        forall i | 0 <= i < |front| ensures !FromClient(front[i], client) {}
        if FromClient(last, client) {
          assert log[..|log| - 1] == front;
          assert Latest(log, client, |log| - 1);
        } else {
          forall i | 0 <= i < |log| ensures !FromClient(log[i], client) { if i < |front| { assert log[i] == front[i]; } }
        }
      }
    }
  }

  /** The latest entry carries the greatest serial number so far. */
  lemma LatestIsGreatest(log: seq<Entry>, client: ClientId, j: int)
    requires Latest(log, client, j)
    ensures forall i :: 0 <= i < |log| && FromClient(log[i], client) ==> SerialOf(log[i]) <= SerialOf(log[j])
    ensures forall serial :: Exceeds(log, client, serial) <==> SerialOf(log[j]) < serial
  {
    forall i | 0 <= i < |log| && FromClient(log[i], client) ensures SerialOf(log[i]) <= SerialOf(log[j]) {
      if i < j { assert log[..j][i] == log[i]; }
    }
  }

  lemma TableStep(log: seq<Entry>, client: ClientId, j: int)
    requires Indexed(log) && log != []
    requires var front := log[..|log| - 1];
      Latest(front, client, j) && client in Replay(front).sessions
      && Replay(front).sessions[client] == Cached(SerialOf(front[j]), PutAt(j + 1))
      && forall serial :: Exceeds(front, client, serial) <==> SerialOf(front[j]) < serial
    ensures client in Replay(log).sessions
    ensures exists k :: Latest(log, client, k) && Replay(log).sessions[client] == Cached(SerialOf(log[k]), PutAt(k + 1))
    ensures exists i :: 0 <= i < |log| && FromClient(log[i], client)
  {
    var front, last := log[..|log| - 1], log[|log| - 1];
    assert log[j] == front[j] && log[..j] == front[..j];
    assert FromClient(log[j], client);
    if FromClient(last, client) && SerialOf(last) > SerialOf(front[j]) {
      assert Latest(log, client, |log| - 1);
    } else {
      assert Latest(log, client, j);
    }
  }

  /** Running a log through the sessions gives the data of the entries that take
      effect, once each, whatever was submitted twice or late. */
  lemma {:induction false} ExactlyOnce(log: seq<Entry>)
    requires Indexed(log)
    ensures Replay(log).kv == Kv(|log|, Effects(log))
  {
    ReplayApplied(log);
    if log != [] {
      var front, last := log[..|log| - 1], log[|log| - 1];
      ExactlyOnce(front);
      if last.command.Some? && last.command.value.Session? {
        var client := last.command.value.client;
        TableIsLatest(front, client);
        if client in Replay(front).sessions {
          var j :| Latest(front, client, j) && Replay(front).sessions[client] == Cached(SerialOf(front[j]), PutAt(j + 1));
          LatestIsGreatest(front, client, j);
        } else {
          forall j | 0 <= j < |front| ensures !FromClient(front[j], client) {}
        }
      }
    }
  }

  // --------------------------------------------------------- what is read

  predicate Puts(entry: Entry, key: string) {
    entry.command.Some? && entry.command.value.put.key == key
  }

  /** Entry j takes effect, puts the key, and none after it does both. */
  predicate LastEffect(log: seq<Entry>, key: string, j: int) {
    && 0 <= j < |log| && TakesEffect(log[..j], log[j]) && Puts(log[j], key)
    && forall i :: j < i < |log| && TakesEffect(log[..i], log[i]) ==> !Puts(log[i], key)
  }

  predicate NoEffect(log: seq<Entry>, key: string) {
    forall i :: 0 <= i < |log| && TakesEffect(log[..i], log[i]) ==> !Puts(log[i], key)
  }

  lemma {:induction false} EffectsHold(log: seq<Entry>, key: string)
    ensures key !in Effects(log) ==> NoEffect(log, key)
    ensures key in Effects(log) ==> exists j :: LastEffect(log, key, j) && log[j].command.value.put == Put(key, Effects(log)[key])
  {
    if log != [] {
      var front, last := log[..|log| - 1], log[|log| - 1];
      EffectsHold(front, key);
      assert forall i :: 0 <= i < |front| ==> log[..i] == front[..i] && log[i] == front[i];
      assert log[..|log| - 1] == front;
      if TakesEffect(front, last) && Puts(last, key) {
        assert LastEffect(log, key, |log| - 1);
      } else if key in Effects(front) {
        var j :| LastEffect(front, key, j) && front[j].command.value.put == Put(key, Effects(front)[key]);
        assert LastEffect(log, key, j);
      }
    }
  }

  lemma OneLastEffect(log: seq<Entry>, key: string, i: int, j: int)
    requires LastEffect(log, key, i) && LastEffect(log, key, j)
    ensures i == j
  {
  }

  /** The key has the value that the last entry to take effect put there. */
  ghost predicate LastValue(log: seq<Entry>, key: string, value: string) {
    exists j :: LastEffect(log, key, j) && log[j].command.value.put == Put(key, value)
  }

  /** What a query is to be answered on a log: for a key, the last value put there by an
      entry to take effect, and nothing exactly if there is no such entry; for a scan,
      the same of all keys. */
  ghost predicate ReadsAs(log: seq<Entry>, query: ReadCommand, answer: ReadReply) {
    match query
    case Get(key) =>
      && answer.Found? && (answer.value.None? <==> NoEffect(log, key))
      && forall v :: answer.value == Some(v) <==> LastValue(log, key, v)
    case Scan =>
      && answer.Table?
      && (forall key :: key !in answer.data <==> NoEffect(log, key))
      && forall key, v :: (key in answer.data && answer.data[key] == v) <==> LastValue(log, key, v)
  }

  lemma EffectsAreLast(log: seq<Entry>, key: string)
    ensures key !in Effects(log) <==> NoEffect(log, key)
    ensures forall v :: (key in Effects(log) && Effects(log)[key] == v) <==> LastValue(log, key, v)
  {
    EffectsHold(log, key);
    forall i, j | LastEffect(log, key, i) && LastEffect(log, key, j) ensures i == j { OneLastEffect(log, key, i, j); }
  }

  /** A read answers so. */
  lemma ReadsLastEffect(log: seq<Entry>, query: ReadCommand)
    requires Indexed(log)
    ensures ReadsAs(log, query, Machine.Read(Replay(log), query))
  {
    ExactlyOnce(log);
    forall key
      ensures key !in Effects(log) <==> NoEffect(log, key)
      ensures forall v :: (key in Effects(log) && Effects(log)[key] == v) <==> LastValue(log, key, v)
    {
      EffectsAreLast(log, key);
    }
  }

  /** What an entry is to be answered: the index where it takes effect; for a repetition
      of the client's latest command the index where that took effect; nothing for an
      older one. */
  ghost predicate RepliesAs(log: seq<Entry>, entry: Entry, reply: Reply) {
    && (TakesEffect(log, entry) ==> reply == PutAt(|log| + 1))
    && (forall client, j :: FromClient(entry, client) && Latest(log, client, j) ==>
          (SerialOf(entry) == SerialOf(log[j]) ==> reply == PutAt(j + 1))
          && (SerialOf(entry) < SerialOf(log[j]) ==> reply == Nothing))
    && (entry.command.None? ==> reply == Nothing)
  }

  /** An entry is answered so, and changes nothing unless it takes effect. */
  lemma Answers(log: seq<Entry>, entry: Entry)
    requires Indexed(log) && entry.index == |log| + 1
    ensures var (s, reply) := Apply(Replay(log), entry);
      && RepliesAs(log, entry, reply)
      && (!TakesEffect(log, entry) ==> s.kv.data == Effects(log) && s.sessions == Replay(log).sessions)
  {
    ExactlyOnce(log);
    if entry.command.Some? && entry.command.value.Session? {
      var client := entry.command.value.client;
      TableIsLatest(log, client);
      if client in Replay(log).sessions {
        var j :| Latest(log, client, j) && Replay(log).sessions[client] == Cached(SerialOf(log[j]), PutAt(j + 1));
        LatestIsGreatest(log, client, j);
        forall i | Latest(log, client, i) ensures i == j { OneLatest(log, client, i, j); }
      } else {
        forall j | 0 <= j < |log| ensures !FromClient(log[j], client) {}
      }
    }
  }

  /** A reply that carries an index names the entry of that client and serial number
      which took effect. */
  lemma RepliesOnEffect(log: seq<Entry>, entry: Entry, reply: Reply, client: ClientId) returns (j: nat)
    requires Indexed(log) && RepliesAs(log, entry, reply) && FromClient(entry, client) && reply.PutAt?
    ensures j <= |log| && reply == PutAt(j + 1)
    ensures var l := log + [entry]; FromClient(l[j], client) && SerialOf(l[j]) == SerialOf(entry) && TakesEffect(l[..j], l[j])
  {
    var l := log + [entry];
    assert l[..|log|] == log;
    if TakesEffect(log, entry) {
      j := |log|;
    } else {
      TableIsLatest(log, client);
      var k: nat :| Latest(log, client, k);
      LatestIsGreatest(log, client, k);
      assert l[..k] == log[..k] && l[k] == log[k];
      j := k;
    }
  }

  /** Of the entries of one client with one serial number, one at most takes effect. */
  lemma OneTakesEffect(log: seq<Entry>, client: ClientId, i: nat, j: nat)
    requires i < |log| && j < |log| && FromClient(log[i], client) && FromClient(log[j], client) && SerialOf(log[i]) == SerialOf(log[j])
    requires TakesEffect(log[..i], log[i]) && TakesEffect(log[..j], log[j])
    ensures i == j
  {
    assert forall a, b :: 0 <= a < b < |log| ==> log[..b][a] == log[a];
  }

  lemma OneLatest(log: seq<Entry>, client: ClientId, i: int, j: int)
    requires Latest(log, client, i) && Latest(log, client, j)
    ensures i == j
  {
    LatestIsLast(log, client, i, j);
    LatestIsLast(log, client, j, i);
  }

  lemma LatestIsLast(log: seq<Entry>, client: ClientId, i: int, j: int)
    requires 0 <= i < |log| && FromClient(log[i], client) && Latest(log, client, j)
    ensures i < j ==> SerialOf(log[i]) < SerialOf(log[j])
  {
    if i < j { assert log[..j][i] == log[i]; }
  }

  // --------------------------------------------------- snapshot and tail

  function ApplyEntries(s: State, es: seq<Entry>): State {
    if es == [] then s else Apply(ApplyEntries(s, es[..|es| - 1]), es[|es| - 1]).0
  }

  lemma {:induction false} ReplayInTwo(log: seq<Entry>, a: nat)
    requires a <= |log|
    ensures ApplyEntries(Replay(log[..a]), log[a..]) == Replay(log)
    decreases |log| - a
  {
    if a == |log| {
      assert log[..a] == log;
    } else {
      var front := log[..|log| - 1];
      ReplayInTwo(front, a);
      assert front[..a] == log[..a] && log[a..][..|log[a..]| - 1] == front[a..];
    }
  }

  /** Restoring a snapshot taken after entry a, recorded for an index that is not
      beyond a, and applying the committed entries that follow gives what replaying
      the log from its start gives, data and session table alike. */
  lemma SnapshotPlusTail(log: seq<Entry>, a: nat, index: Index, commit: Index)
    requires Indexed(log) && index <= a <= |log| && commit <= |log|
    ensures var s := Restore(Replay(log[..a]), index);
      Applied(s) == a
      && ApplyEntries(s, if a < commit then log[a..commit] else []) == Replay(log[..Max(a, commit)])
  {
    ReplayApplied(log[..a]);
    var s := Restore(Replay(log[..a]), index);
    assert s == Replay(log[..a]);
    if a < commit {
      var l := log[..commit];
      ReplayInTwo(l, a);
      assert l[..a] == log[..a] && l[a..] == log[a..commit];
    }
  }

  // ------------------------------------- bytes older than their index

  /** The entry would add to the session table or replace a record in it. */
  predicate Renews(sessions: map<ClientId, Cached>, entry: Entry) {
    && entry.command.Some? && entry.command.value.Session?
    && (entry.command.value.client in sessions ==> sessions[entry.command.value.client].serial < entry.command.value.serial)
  }

  /** No entry is news to the table. */
  predicate Quiet(sessions: map<ClientId, Cached>, es: seq<Entry>) {
    forall i :: 0 <= i < |es| ==> !Renews(sessions, es[i])
  }

  predicate PutsPlainly(entry: Entry, key: string) {
    entry.command.Some? && entry.command.value.Plain? && entry.command.value.put.key == key
  }

  /** Entry j is the last one outside any session that puts its key. */
  predicate LastPut(es: seq<Entry>, j: int) {
    && 0 <= j < |es| && es[j].command.Some? && es[j].command.value.Plain?
    && forall i :: j < i < |es| ==> !PutsPlainly(es[i], es[j].command.value.put.key)
  }

  /** What can be told from a state and the entries passed over, before any of them is
      run: no session entry is news to the table, and each key that is put outside
      sessions has the last value it is put to already. */
  ghost predicate Harmless(s: State, skipped: seq<Entry>) {
    && Quiet(s.sessions, skipped)
    && (forall j :: LastPut(skipped, j) ==>
          var put := skipped[j].command.value.put; put.key in s.kv.data && s.kv.data[put.key] == put.value)
  }

  /** A client's record never goes back to an older serial number. */
  lemma {:induction false} SerialsAscend(s: State, es: seq<Entry>, client: ClientId)
    requires client in s.sessions
    ensures client in ApplyEntries(s, es).sessions && s.sessions[client].serial <= ApplyEntries(s, es).sessions[client].serial
    decreases |es|
  {
    if es != [] { SerialsAscend(s, es[..|es| - 1], client); }
  }

  /** The session table stays as it is exactly if no entry is news to it. */
  lemma {:induction false} TableStays(s: State, es: seq<Entry>)
    ensures ApplyEntries(s, es).sessions == s.sessions <==> Quiet(s.sessions, es)
    decreases |es|
  {
    if es != [] {
      var front, last := es[..|es| - 1], es[|es| - 1];
      var mid := ApplyEntries(s, front);
      TableStays(s, front);
      if mid.sessions != s.sessions {
        var i :| 0 <= i < |front| && Renews(s.sessions, front[i]);
        var client := front[i].command.value.client;
        RenewedFor(s, front, i);
        SerialsAscend(mid, [last], client);
        assert ApplyEntries(mid, [last]) == Apply(mid, last).0 by { assert [last][..0] == []; }
        assert es[i] == front[i];
      } else {
        assert forall i :: 0 <= i < |es| ==> es[i] == if i < |front| then front[i] else last;
      }
    }
  }

  /** An entry that was news leaves a newer record than there was. */
  lemma {:induction false} RenewedFor(s: State, es: seq<Entry>, i: nat)
    requires i < |es| && Renews(s.sessions, es[i])
    ensures var client, s' := es[i].command.value.client, ApplyEntries(s, es);
      client in s'.sessions && (client in s.sessions ==> s.sessions[client].serial < s'.sessions[client].serial)
    decreases |es|
  {
    var front := es[..|es| - 1];
    var client := es[i].command.value.client;
    if i < |front| {
      RenewedFor(s, front, i);
    } else if client in s.sessions {
      SerialsAscend(s, front, client);
    }
  }

  lemma PlainStep(s: State, entry: Entry)
    requires !Renews(s.sessions, entry)
    ensures var s' := Apply(s, entry).0;
      s'.sessions == s.sessions
      && s'.kv.data == if entry.command.Some? && entry.command.value.Plain?
        then s.kv.data[entry.command.value.put.key := entry.command.value.put.value] else s.kv.data
  {
  }

  ghost predicate NeverPut(es: seq<Entry>, key: string) {
    forall i :: 0 <= i < |es| ==> !PutsPlainly(es[i], key)
  }

  /** The key is as in `before` if it was never put, and else as it was put last. */
  ghost predicate LastPutShows(before: map<string, string>, es: seq<Entry>, key: string, after: map<string, string>) {
    && (NeverPut(es, key) ==> (key in after <==> key in before) && (key in after ==> after[key] == before[key]))
    && (forall j :: LastPut(es, j) && PutsPlainly(es[j], key) ==> key in after && after[key] == es[j].command.value.put.value)
  }

  lemma LastPutShowsMore(before: map<string, string>, front: seq<Entry>, last: Entry, key: string, mid: map<string, string>, after: map<string, string>)
    requires LastPutShows(before, front, key, mid)
    requires if PutsPlainly(last, key) then key in after && after[key] == last.command.value.put.value
             else (key in after <==> key in mid) && (key in after ==> after[key] == mid[key])
    ensures LastPutShows(before, front + [last], key, after)
  {
    var es := front + [last];
    if PutsPlainly(last, key) {
      assert PutsPlainly(es[|front|], key);
      forall j | LastPut(es, j) && PutsPlainly(es[j], key) ensures j == |front| {}
    } else {
      assert NeverPut(es, key) ==> NeverPut(front, key) by {
        forall i | 0 <= i < |front| ensures es[i] == front[i] {}
      }
      forall j | LastPut(es, j) && PutsPlainly(es[j], key) ensures j < |front| && es[j] == front[j] && LastPut(front, j) {
        forall i | j < i < |front| ensures es[i] == front[i] {}
      }
    }
  }

  /** With the table as it is, the data are the old ones under the last plain puts. */
  lemma {:induction false} DataAfter(s: State, es: seq<Entry>, key: string)
    requires Quiet(s.sessions, es)
    ensures LastPutShows(s.kv.data, es, key, ApplyEntries(s, es).kv.data)
    decreases |es|
  {
    hide Apply, Renews, LastPutShows, Quiet;
    if es == [] {
      NothingPut(s.kv.data, key);
    } else {
      var front, last := es[..|es| - 1], es[|es| - 1];
      QuietFront(s.sessions, es);
      DataAfter(s, front, key);
      TableStays(s, front);
      PlainStep(ApplyEntries(s, front), last);
      LastPutShowsMore(s.kv.data, front, last, key, ApplyEntries(s, front).kv.data, ApplyEntries(s, es).kv.data);
      assert es == front + [last];
    }
  }

  lemma NothingPut(data: map<string, string>, key: string)
    ensures LastPutShows(data, [], key, data)
  {
  }

  lemma QuietFront(sessions: map<ClientId, Cached>, es: seq<Entry>)
    requires es != [] && Quiet(sessions, es)
    ensures Quiet(sessions, es[..|es| - 1]) && !Renews(sessions, es[|es| - 1])
  {
  }

  /** Some plain put of a key is the last one. */
  lemma {:induction false} LastPutExists(es: seq<Entry>, key: string, i: nat)
    requires i < |es| && PutsPlainly(es[i], key)
    ensures exists j :: LastPut(es, j) && PutsPlainly(es[j], key)
    decreases |es| - i
  {
    if !LastPut(es, i) {
      var k :| i < k < |es| && PutsPlainly(es[k], key);
      LastPutExists(es, key, k);
    }
  }

  /** Passing entries over, as if applied, is right exactly if they are harmless. */
  lemma PassingOver(s: State, skipped: seq<Entry>)
    ensures ApplyEntries(s, skipped).sessions == s.sessions && ApplyEntries(s, skipped).kv.data == s.kv.data <==> Harmless(s, skipped)
  {
    hide Apply, ApplyEntries, Quiet;
    var s' := ApplyEntries(s, skipped);
    TableStays(s, skipped);
    if s'.sessions == s.sessions {
      forall key: string ensures LastPutShows(s.kv.data, skipped, key, s'.kv.data) { DataAfter(s, skipped, key); }
      if Harmless(s, skipped) {
        forall key | key in s'.kv.data || key in s.kv.data
          ensures key in s'.kv.data && key in s.kv.data && s'.kv.data[key] == s.kv.data[key]
        {
          assert LastPutShows(s.kv.data, skipped, key, s'.kv.data);
          if !NeverPut(skipped, key) {
            var i: nat :| i < |skipped| && PutsPlainly(skipped[i], key);
            LastPutExists(skipped, key, i);
          }
        }
      } else {
        var j :| LastPut(skipped, j) && var put := skipped[j].command.value.put; !(put.key in s.kv.data && s.kv.data[put.key] == put.value);
        var key := skipped[j].command.value.put.key;
        assert LastPutShows(s.kv.data, skipped, key, s'.kv.data) && PutsPlainly(skipped[j], key);
      }
    }
  }

  /** With a recorded index beyond what the snapshot bytes hold, the entries between
      are taken for applied and never run. The result is that of the whole log exactly
      if the snapshot and those entries are harmless to each other. */
  lemma OlderBytes(log: seq<Entry>, a: nat, index: Index)
    requires Indexed(log) && a < index <= |log|
    ensures Restore(Replay(log[..a]), index) == Replay(log[..index]) <==> Harmless(Replay(log[..a]), log[a..index])
  {
    ReplayApplied(log[..a]);
    ReplayApplied(log[..index]);
    ReplayInTwo(log[..index], a);
    assert log[..index][..a] == log[..a] && log[..index][a..] == log[a..index];
    PassingOver(Replay(log[..a]), log[a..index]);
  }

  /** The least of such cases: one put passed over. */
  lemma OlderBytesLosePut(put: Put)
    ensures var log := [Entry(1, 1, Some(Plain(put)), None)];
      Restore(Replay(log[..0]), 1) != Replay(log)
  {
    var log := [Entry(1, 1, Some(Plain(put)), None)];
    assert log[..0] == [] && log[..|log| - 1] == [];
    assert put.key in Replay(log).kv.data && put.key !in Replay([]).kv.data;
  }

  // ---------------------------------------- what is stored, after a crash

  /** A snapshot of the state after `upTo` entries, recorded for `index`. */
  datatype Save = Save(upTo: nat, index: Index)

  /** The two cells a snapshot is kept in: the bytes, and the index they are recorded for. */
  datatype Cells = Cells(upTo: nat, index: Index)

  /** Saving writes the bytes first and the index after them. */
  function Saved(saves: seq<Save>, writes: nat): Cells
    requires writes <= 2 * |saves|
  {
    Cells(if writes == 0 then 0 else saves[(writes - 1) / 2].upTo, if writes < 2 then 0 else saves[writes / 2 - 1].index)
  }

  /** Snapshots are taken of what is applied, or received from a leader that had applied
      as much, and none goes back behind an earlier one. */
  predicate Ascending(saves: seq<Save>, entries: nat) {
    && (forall i :: 0 <= i < |saves| ==> saves[i].index <= saves[i].upTo <= entries)
    && (forall i, j :: 0 <= i <= j < |saves| ==> saves[i].index <= saves[j].index)
  }

  /** What a node starts from: without a recorded index the bytes are not looked at. */
  function Started(log: seq<Entry>, c: Cells): State
    requires c.upTo <= |log|
  {
    if c.index > 0 then Restore(Replay(log[..c.upTo]), c.index) else EmptyState
  }

  /** After a crash between any two of the writes the bytes reach at least as far as the
      index found with them, so that older bytes never come up: starting from them and
      applying the committed rest gives the replay of the log. */
  lemma StartsFromSnapshot(log: seq<Entry>, saves: seq<Save>, writes: nat, commit: Index)
    requires Indexed(log) && Ascending(saves, |log|) && writes <= 2 * |saves| && commit <= |log|
    ensures var c := Saved(saves, writes);
      && c.index <= c.upTo <= |log|
      && var s := Started(log, c);
         && Applied(s) == (if c.index > 0 then c.upTo else 0)
         && ApplyEntries(s, if Applied(s) < commit then log[Applied(s)..commit] else []) == Replay(log[..Max(Applied(s), commit)])
  {
    var c := Saved(saves, writes);
    if writes >= 2 { assert saves[writes / 2 - 1].index <= saves[(writes - 1) / 2].index; }
    SnapshotPlusTail(log, if c.index > 0 then c.upTo else 0, c.index, commit);
    assert log[..0] == [];
  }

  // -------------------------------------------------------------- classes

  /** The key/value store. */
  class KvStore {
    var appliedIndex: Index
    var data: map<string, string>

    constructor ()
      ensures Value() == EmptyKv
    {
      appliedIndex, data := 0, map[];
    }

    ghost function Value(): Kv
      reads this
    {
      Kv(appliedIndex, data)
    }

    method Apply(index: Index, put: Option<Put>) returns (reply: Reply)
      modifies this
      ensures (Value(), reply) == KvApply(old(Value()), index, put)
    {
      reply := Nothing;
      if put.Some? {
        data := data[put.value.key := put.value.value];
        reply := PutAt(index);
      }
      appliedIndex := index;
    }

    method Read(command: ReadCommand) returns (reply: ReadReply)
      ensures reply == KvRead(Value(), command)
    {
      match command
      case Get(key) => reply := Found(if key in data then Some(data[key]) else None);
      case Scan => reply := Table(data);
    }

    method Snapshot() returns (snapshot: Kv)
      ensures snapshot == Value()
    {
      snapshot := Kv(appliedIndex, data);
    }

    method Restore(snapshot: Kv, index: Index)
      modifies this
      ensures Value() == KvRestore(snapshot, index)
    {
      appliedIndex := Max(index, snapshot.applied);
      data := snapshot.data;
    }
  }

  /** The store behind its sessions. */
  class SessionState {
    const inner: KvStore
    var sessions: map<ClientId, Cached>

    constructor ()
      ensures fresh(inner) && Value() == EmptyState
    {
      inner := new KvStore();
      sessions := map[];
    }

    ghost function Value(): State
      reads this, inner
    {
      State(inner.Value(), sessions)
    }

    /** Apply one entry: a repetition and an overtaken command only advance the index. */
    method Apply(entry: Entry) returns (reply: Reply)
      modifies this, inner
      ensures (Value(), reply) == Machine.Apply(old(Value()), entry)
    {
      match entry.command
      case None => reply := inner.Apply(entry.index, None);
      case Some(Plain(put)) => reply := inner.Apply(entry.index, Some(put));
      case Some(Session(client, serial, put)) =>
        if client in sessions {
          var last := sessions[client];
          if serial == last.serial {
            var _ := inner.Apply(entry.index, None);
            return last.reply;
          }
          if serial < last.serial {
            var _ := inner.Apply(entry.index, None);
            return Nothing;
          }
        }
        reply := inner.Apply(entry.index, Some(put));
        sessions := sessions[client := Cached(serial, reply)];
    }

    method Read(command: ReadCommand) returns (reply: ReadReply)
      ensures reply == Machine.Read(Value(), command)
    {
      reply := inner.Read(command);
    }

    method Snapshot() returns (snapshot: State)
      ensures snapshot == Value()
    {
      var kv := inner.Snapshot();
      snapshot := State(kv, sessions);
    }

    method Restore(snapshot: State, index: Index)
      modifies this, inner
      ensures Value() == Machine.Restore(snapshot, index)
    {
      inner.Restore(snapshot.kv, index);
      sessions := snapshot.sessions;
    }

    /** Bring a restored state machine up to the commit index. */
    method CatchUp(log: seq<Entry>, commit: Index)
      requires Indexed(log) && commit <= |log| && Applied(Value()) <= |log|
      requires Value() == Replay(log[..Applied(Value())])
      modifies this, inner
      ensures Value() == Replay(log[..Max(old(Applied(Value())), commit)])
    {
      var i := inner.appliedIndex;
      while i < commit
        invariant i <= |log| && (i <= commit || i == old(Applied(Value()))) && Applied(Value()) == i
        invariant i >= old(Applied(Value())) && Value() == Replay(log[..i])
      {
        assert log[..i + 1][..i] == log[..i];
        var _ := Apply(log[i]);
        ApplyAdvances(Replay(log[..i]), log[i]);
        i := i + 1;
      }
    }
  }
}
