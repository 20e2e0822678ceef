/** The replicated state machine: a string store (src/raft/kv.rs) wrapped by
    client sessions that suppress duplicates (src/raft/session.rs). Commands are
    taken after decoding, so every command in a log is a well-formed write. */
module Machine {
  import opened Basics
  import opened Configuration

  datatype Put = Put(key: string, value: string)

  datatype Command =
    | Plain(put: Put)
    | Session(client: ClientId, serial: nat, put: Put)

  datatype Entry = Entry(index: Index, term: Term, command: Option<Command>, membership: Option<MembershipEntry>)

  /** `Nothing` is the empty byte string the program returns for a no-op. */
  datatype Reply = Nothing | PutAt(index: Index)

  datatype ReadCommand = Get(key: string) | Scan
  datatype ReadReply = Found(value: Option<string>) | Table(data: map<string, string>)

  // ------------------------------------------------------------- store

  datatype Kv = Kv(applied: Index, data: map<string, string>)

  const EmptyKv := Kv(0, map[])

  function KvApply(kv: Kv, index: Index, put: Option<Put>): (Kv, Reply) {
    match put
    case None => (kv.(applied := index), Nothing)
    case Some(p) => (Kv(index, kv.data[p.key := p.value]), PutAt(index))
  }

  function KvRead(kv: Kv, command: ReadCommand): ReadReply {
    match command
    case Get(k) => Found(if k in kv.data then Some(kv.data[k]) else None)
    case Scan => Table(kv.data)
  }

  /** The snapshot bytes carry their own applied index; the newer of the two wins. */
  function KvRestore(snapshot: Kv, index: Index): Kv {
    Kv(Max(index, snapshot.applied), snapshot.data)
  }

  // ---------------------------------------------------------- sessions

  /** The last sequence number applied for a client, with the reply it got. */
  datatype Cached = Cached(serial: nat, reply: Reply)

  datatype State = State(kv: Kv, sessions: map<ClientId, Cached>)

  const EmptyState := State(EmptyKv, map[])

  function Applied(s: State): Index {
    s.kv.applied
  }

  function Apply(s: State, entry: Entry): (State, Reply) {
    match entry.command
    case None =>
      var (kv, reply) := KvApply(s.kv, entry.index, None);
      (s.(kv := kv), reply)
    case Some(Plain(put)) =>
      var (kv, reply) := KvApply(s.kv, entry.index, Some(put));
      (s.(kv := kv), reply)
    case Some(Session(client, serial, put)) =>
      if client in s.sessions && serial == s.sessions[client].serial then
        (s.(kv := KvApply(s.kv, entry.index, None).0), s.sessions[client].reply)
      else if client in s.sessions && serial < s.sessions[client].serial then
        (s.(kv := KvApply(s.kv, entry.index, None).0), Nothing)
      else
        var (kv, reply) := KvApply(s.kv, entry.index, Some(put));
        (State(kv, s.sessions[client := Cached(serial, reply)]), reply)
  }

  function Read(s: State, command: ReadCommand): ReadReply {
    KvRead(s.kv, command)
  }

  function Restore(snapshot: State, index: Index): State {
    State(KvRestore(snapshot.kv, index), snapshot.sessions)
  }

  /** The state after applying a log from its first entry. */
  function Replay(log: seq<Entry>): State {
    if log == [] then EmptyState else Apply(Replay(log[..|log| - 1]), log[|log| - 1]).0
  }

  predicate Indexed(log: seq<Entry>) {
    forall i :: 0 <= i < |log| ==> log[i].index == i + 1
  }

  /** `applied_index` follows every entry, whatever it carries. */
  lemma ApplyAdvances(s: State, entry: Entry)
    ensures Applied(Apply(s, entry).0) == entry.index
  {
  }

  lemma {:induction false} ReplayApplied(log: seq<Entry>)
    requires Indexed(log)
    ensures Applied(Replay(log)) == |log|
  {
    if log != [] {
      ApplyAdvances(Replay(log[..|log| - 1]), log[|log| - 1]);
    }
  }
}
