# A verified model of the Raft engine

The repository is a Raft implementation in four layers: nodes that exchange
messages (`src/raft/node.rs`), a persistent log (`src/raft/log.rs`), an append-only
key/value file (`src/storage/bitcask.rs`) and a replicated store with client
sessions (`src/raft/session.rs`, `src/raft/kv.rs`). This project models each layer
with the program's own branches, edge cases and failing assertions, and proves what
the layer is for. `dafny verify dfyconfig.toml` checks everything.

**The cluster.** `RaftNode` is `node.rs` as a function from a node's state and one
input to the next state and the messages sent. An assertion that fails or a panic puts
the node in the role `Halted`, in which it does nothing more until it restarts. `Process`
is the same code in the program's form: a class `RawNode` whose methods update its
fields in place, with the program's loops, each proved to do exactly what the function
says. `Cluster` puts nodes on a network: every message ever sent stays available, so
it may be delivered at any later time, any number of times, or never; clients may
submit anything but configuration changes; clocks tick at will; nodes restart with
their term, vote and entries and any commit index up to the one they had, and with any
options that let an Append carry an entry. Random timeouts are arbitrary values.
`Safety` holds the theorems over all such runs, for one fixed configuration of any
size and with snapshots off, with reads and writes described by the puts in the log that
take effect; `Origins` shows that nodes pass requests on and never make
them up, which gives answers their real-time order.

The proof goes through `Protocol`, an abstract state of logs, duties and a history of
elections, votes, acknowledgements and reads, with an inductive invariant;
`ProtocolSteps` shows that each kind of step keeps it. The history is no part of the
cluster: `Refinement` and `LeaderRefinement` show that every handler of every role
is a sequence of such steps and sends only true messages, and `Cluster.Explained` finds
a history for any run. A cluster event asks that the acting node satisfies the local
invariant `Ok`; `Safety.MachineIsReplay` shows that this always holds, so it stops no run.

**Single nodes, with configuration changes.** `NodeInvariant`, `Reconfiguration`,
`Adoption`, `CheckQuorum` and `Requests` make no assumption about the messages that
arrive, so they hold under any membership changes. `Reconfiguration` says over a leader's
whole time in office whether its configurations follow one another as they should;
`ElectedStart` shows that every election in order gives such a start. `OlderTargets` has
two concrete leaders that fall out of order. `CatchUp` takes a leader and one peer apart
and shows that the append exchange between them ends, from any heartbeat on and over the
messages that the two nodes' `Step` produces.

What a node does for those outside is stated on messages and logs, not on the functions
that `RaftNode` is made of. `Elections` says exactly who votes for whom, when a node stands
and what it then sends, that votes of any majority make a leader, and that a candidate
whose log no one of a majority is ahead of gets these votes. `Following` has the client
requests that a follower passes on and the leader's messages that it answers, `Leading`
what a leader appends, sends, commits and reads on each request, acknowledgement and tick.
`Serving` shows that a leader in office keeps everyone who waits: when their entry is
applied they are answered with what it gives, and they wait on until then. `Availability`
puts this together: acknowledgements of any majority commit the log and serve everyone.
`AnsweredRun` is a run with a write and a read that are answered.

**The log.** `LogSpec` defines splicing on values. `RaftLog` is the log object over a
storage engine taken at its contract: cells that change one write at a time, of which a
crash loses some of those behind the last flush, from the end. Its ghost field `log` is
the entries held; `Loaded` is what opening the disk would give, and every operation keeps
the cached fields equal to it. `LogKeys` and `Bytes` tie the key encoding to index order.

**The file.** `Records` is the record format and what parsing, cutting and compacting do
to it; `BitCask` is the engine object over a growable byte sequence. `Storage` puts the
two together: the log's writes as records of the file, the file cut at any byte behind
the last flush, and what reopening file and log then finds.

**The state machine.** `Machine` and `Sessions`: sessions over the store, as functions
and as the two stateful classes.

## What turned out false, and what holds instead

- The branches for unexpected messages are not dead: a leader that CheckQuorum sends out of
  office stays in its term, and any late answer to it then panics it
  (`Panics.LateAnswersPanic`). `LateAnswers.LateAnswerInARun` is a run of three nodes in
  which this happens, and `Panics.PanicsExactlyWhen` states for every event of every run
  when a node panics.
- Compacting at the last index with another term than that entry's, or at index 0 after
  an earlier compaction, and resetting to index 0 with a term, leave fields that a restart
  would not find. `RaftLog.CompactTo` and `ResetWithSnapshot` state exactly when. Only a
  direct caller of the log can do this: `maybe_snapshot` (`src/raft/node.rs:2353-2400`) compacts at
  an applied index above the snapshot with the term of the entry there, and a snapshot is
  sent only once the first index exceeds a next index (`src/raft/node.rs:2499-2530`), hence with a
  positive one.
- Right after a snapshot, a follower recognises the leader's base entry (`RaftLog.Has`) and then
  fails to splice what follows it: `LogSpec.ContinuingFromFirst`.
- A configuration that splicing removes from the log stays in force, and a delayed Append
  can bring an older one back: `Adoption.AppendSettles` states exactly when, with two
  concrete cases.
- Restoring snapshot bytes older than their recorded index passes entries over.
  `Sessions.OlderBytes` states exactly when that is harmless, as a condition on the
  snapshot and the entries passed over. No call site produces such bytes: they are always
  written before the index is, so also after a crash between the two writes they are at
  least as new (`Sessions.StartsFromSnapshot`).
- Changes of configuration do not always go one at a time. A leader elected with two
  changes unapplied appends the older target behind the newer one once more
  (`OlderTargets.OlderTargetReturns`), and one that has applied the first change but not the
  second accepts a third, after which two neighbouring configurations need not overlap
  (`OlderTargets.EarlyChange`). `Reconfiguration.CommitKeepsOrder` gives the exact
  condition for one commit, `OrderKept` for any time in office, and `OrderDecided` in terms
  of what an elected leader inherited.
- The documentation (`README.md:34`, `docs/README.md:78`) has a removed leader step down
  once the Simple configuration commits. The code does so when the Joint one commits and
  the Simple one is appended: `Reconfiguration.RemovedLeaderLeaves`.

## Model

| member | source | states |
|---|---|---|
| Safety.ElectionSafety | src/raft/node.rs:1090-1117 | In any run, at any two moments, two nodes that lead in the same term are the same node; pre-vote rounds, stale responses, stepping down within a term and restarts included. |
| Safety.LogMatching | src/raft/log.rs:745-781 | Across all node logs and all entries carried by Append messages of a run, one index with one term determines the entry there and every earlier entry that both hold. |
| Safety.CommitsNeverDiverge | src/raft/node.rs:2133-2195 | What any two nodes ever had committed, at any two moments of a run, are prefixes of one another. |
| Safety.MachineIsReplay | src/raft/node.rs:994-1010 | Every node of every run keeps its local invariant, and its state machine is the replay of the part of its log that it has applied, which is committed. |
| Safety.StateMachineSafety | src/raft/node.rs:597-632 | Any two nodes that ever applied an index applied the same entry there, and nodes that applied equally far have equal state, data and sessions. |
| Safety.LeadersAreComplete | src/raft/node.rs:718-746 | What a node had committed is in the log of every leader of a later term whenever that leader is looked at, and of the leader of the same term from then on. |
| Safety.AcknowledgementsAreSound | src/raft/node.rs:1412-1458 | For every peer of a leader: match index < next index <= last index + 1, and while the peer is in the leader's term the two logs are equal up to the match index. |
| Safety.ReadsAreLinearizable | src/raft/node.rs:2404-2474 | Every read result ever sent is, for its keys, the value of the last put that takes effect in a committed log, and nothing where there is none; that log holds everything any node had committed when a leader took that read in, even if newer leaders exist. |
| Safety.WritesAreExecuted | src/raft/node.rs:2204-2300 | For every write result ever sent, the committed log carries that very request's put, with its client and serial number if it has them, at the index where the leader that took it in put it; the reply is that index if the entry takes effect there, and for a retry the index of the first. |
| Safety.RealTimeOrder | src/raft/node.rs:1808-1824 | If a read or write was answered by some moment and the request of another answer had not been submitted by then, both are served on committed logs, and any log that serves the later one extends any that serves the earlier one: completed writes are visible and reads never go back. |
| Safety.SessionsRunOnce | src/raft/session.rs:107-187 | In any run, all answers with an index to writes of one client and serial number, whatever nodes they went to and under whatever ids, carry the same index, and the entry there is that client's and takes effect. |
| Safety.RanOnce | src/raft/session.rs:107-187 | Of all entries committed anywhere at any two moments, at most one of a client and serial number takes effect. |
| AnsweredRun.AnyEventMayFollow | src/raft/node.rs:172-224 | In any state of a run, any message ever sent may be delivered next, any request but a change of voters submitted, any node ticked, and any node restarted with any commit index up to its own; each is what `Step`, `Tick` or `Start` makes of it. |
| AnsweredRun.AnsweredInARun | src/raft/node.rs:456-490 | For any put there is a run in which it is submitted and answered with an index, and a read of its key afterwards is answered with its value. |
| Origins.SentWasSubmitted | src/raft/node.rs:751-785 | Every request in any message of a run was submitted by a client before, under that id and unchanged. |
| Origins.HandledWasSubmitted | src/raft/node.rs:751-785 | So was every request that any node takes in. |
| Safety.CommittedStays | src/raft/node.rs:2176-2195 | A log committed at one moment is comparable with what any node has committed at any other moment of the run. |
| Safety.SeenCommitted | src/raft/node.rs:2190-2195 | By induction over the run: whatever a leader of any term has committed, some node had committed at that moment or before. |
| Cluster.Explained | src/raft/node.rs:172-224 | Every run has a history of elections, votes, acknowledgements, reads and writes under which the protocol invariant holds at every moment and every message ever sent is true. |
| Cluster.StartRefines | src/raft/node.rs:456-490 | Restarting a node on its disk, with an older commit index than it had, keeps the protocol invariant, also for a single voter that elects itself. |
| Cluster.ActorRefines | src/raft/node.rs:172-224 | Any enabled event of a cluster (a delivery, a client request, a tick, a restart) is a step of the protocol, and what is sent in it is true. |
| Panics.PanicsExactlyWhen | src/raft/node.rs:897-903 | A node of a run panics in an event if and only if it is handed one of the late or misdirected responses of its own term that `Unexpected` lists; it never panics on a tick, a client request or a restart. |
| Panics.StepHalts | src/raft/node.rs:1240-1252 | The same for one message handled by a node of any role in a state of the protocol, both directions. |
| Panics.LeaderHalts | src/raft/node.rs:1923-1927 | A leader panics on a message of its own term if and only if it is a ClientResponse. |
| Panics.LateAnswersPanic | src/raft/node.rs:1981-1994 | For any leader that a tick sends out of office: it stays in its term as a follower, and any late heartbeat, append or read response of that term panics it. |
| LateAnswers.LateAnswerInARun | src/raft/node.rs:897-903 | There is a run in which this happens: three nodes, an election, a heartbeat that is answered, a tick on which the leader has lost its quorum, then the answer, on which it panics. |
| Elections.VoteIff | src/raft/node.rs:718-746 | A follower asked for its vote, and a node of any role asked in a later term, grants it if and only if no other vote of that term stands and its last term is lower than the candidate's, or equal with a log not longer; it ends in that term, with that vote, and nothing else of its log changes. |
| Elections.OneOfTwo | src/raft/node.rs:733-741 | Of any two nodes that may still vote in a term at least one grants its vote to the other. |
| Elections.PreVoteIff | src/raft/node.rs:914-957 | A pre-vote is granted if and only if the asked node does not lead, has not heard from a leader within its timeout, has a lower term, and a log that is not ahead; the node itself is unchanged. |
| Elections.RivalRefused | src/raft/node.rs:1214-1217 | A candidate and a leader refuse whoever else stands in their term, and are unchanged. |
| Elections.FollowerTimesOut | src/raft/node.rs:964-976 | A follower stands exactly on the tick that completes its timeout: a pre-vote first if that is on and there are other voters, otherwise the next term with its own vote; every other voter is asked once with its last index and term, its own clients are told of the abort, and all committed is applied. |
| Elections.CandidateTimesOut | src/raft/node.rs:1263-1283 | A candidate stands anew in the same way exactly on the tick that completes its timeout. |
| Elections.VoteCounts | src/raft/node.rs:1192-1211 | A vote of the term is added, a refusal is not; with a majority, and only then, the candidate leads: a no-op ends the otherwise unchanged log, all others are taken to hold what precedes it, and each is sent that no-op and one heartbeat. |
| Elections.PreVoteCounts | src/raft/node.rs:1137-1170 | A pre-vote is counted in the same way; with a majority, and only then, the candidate stands in the next term. |
| Elections.MajorityElects | src/raft/node.rs:1192-1211 | Votes of any voters, in any order and with repetitions, make a candidate the leader if and only if they are a majority with its own. |
| Elections.CanElect | src/raft/node.rs:718-746 | A candidate of whose log no member of some majority is ahead is granted their votes, whatever roles they are in in earlier terms, and leads with them. |
| Elections.LeavingAborts | src/raft/node.rs:1531-1568 | A leader that leaves office over a later term or a tick answers everyone who waits for it with Abort. |
| Elections.Disregarded | src/raft/node.rs:172-224 | Messages of strangers and, pre-votes apart, of earlier terms change nothing and are not answered. |
| Elections.OneLeader | src/raft/node.rs:603-619 | A follower that has a leader does nothing on another node's heartbeat, append or read of the same term. |
| Elections.LeaderFollowed | src/raft/node.rs:1220-1230 | Any other node that hears from a leader of its term or a later one follows it in that term, with its count of silent ticks at 0; its vote survives exactly within the term. |
| Elections.AloneTakesOffice | src/raft/node.rs:1090-1117 | A lone voter that wins has committed and applied its whole log, the no-op included. |
| Elections.StartMeans | src/raft/node.rs:456-490 | A node starts as a follower of no one with all committed entries applied; a lone voter starts as leader of the next term. |
| Following.RequestForwarded | src/raft/node.rs:751-788 | A follower passes a request of its own client on to its leader and remembers it, and answers Abort exactly if it knows no leader or the request comes from elsewhere. |
| Following.AnswerReturned | src/raft/node.rs:792-813 | It returns a response to its client if and only if it comes from its leader and the request is still waited for, and then forgets the request. |
| Following.ThereAndBack | src/raft/node.rs:751-813 | A request passed on and answered leaves the follower as before, and the client with the leader's answer. |
| Following.NoneForgotten | src/raft/node.rs:979-991 | Whatever message or tick a follower handles without panicking, each forwarded request is still waited for or its client is answered. |
| Following.HeartbeatMeans | src/raft/node.rs:597-632 | A heartbeat is answered with its read number, and with the leader's last index if and only if the follower holds that entry in the leader's term; then, and only then, a later commit index is taken over and all up to it applied. |
| Following.AppendMeans | src/raft/node.rs:634-686 | An Append is accepted if and only if the entry it builds on is held, and acknowledged with the index of its last entry; the log is then itself if it has the entries there, and otherwise what preceded them followed by them. Otherwise it stays, and the answer names that entry, or the end of a log that does not reach it. Nothing is committed. |
| Following.ReadMeans | src/raft/node.rs:689-715 | Whoever follows the sender answers a read with its number, and does nothing else. |
| Leading.WriteMeans | src/raft/node.rs:1770-1803 | A write is appended as it was asked for, its client waits at its index, and exactly the peers that were sent all before it are sent it. |
| Leading.ReadMeans | src/raft/node.rs:1808-1824 | A read waits with the next number, and every other voter is asked to confirm that number. |
| Leading.StatusMeans | src/raft/node.rs:2589-2621 | The status gives id, term, commit and applied index, the last index for the leader and the match index for each peer. |
| Leading.ChangeRefused | src/raft/node.rs:2041-2068 | A change of the voters is refused for the first of four reasons that applies, with nothing changed. |
| Leading.ChangeMeans | src/raft/node.rs:2068-2098 | Otherwise an entry puts old and new voters in force together at once; the client waits at its index, it is sent to exactly the peers that were sent all before it, and a new voter starts with match index 0 and a next index behind the log. |
| Leading.AcknowledgedCommits | src/raft/node.rs:1654-1715 | When a peer acknowledges more than before, the leader commits the highest entry of its own term that a majority holds, if that is further, and applies all up to it, even if it then leaves office. |
| Leading.ConfirmationAnswers | src/raft/node.rs:1719-1735 | When a peer confirms reads, exactly those that a majority has now confirmed are answered, with what they find on the present state, provided the leader has committed in its term and applied it; the others wait on. |
| Leading.BeatAnswers | src/raft/node.rs:1670-1674 | So does the read number in a heartbeat response. |
| Leading.TickMeans | src/raft/node.rs:1945-1968 | A tick counts for every peer, saturating, and sends all others one heartbeat with last index, commit index and read number exactly when the interval is over. |
| Availability.CanCommit | src/raft/node.rs:1694-1715 | Acknowledgements of the whole log by any peers, in any order and with repetitions, commit and apply it as soon as they are a majority with the leader, and everyone waiting is served on the way. Stated for a log without configurations. |
| Availability.MajorityServes | src/raft/node.rs:2264-2300 | So a client whose write reaches a majority has what its entry gave. |
| Availability.FirstCommitAnswers | src/raft/node.rs:2337-2340 | With its first own-term commit a leader answers every read that a majority has already confirmed, on the state it has come to. |
| Availability.AloneWrites | src/raft/node.rs:1770-1803 | A lone voter commits, applies and answers a write in the step that takes it in. |
| Availability.AloneReads | src/raft/node.rs:1818-1822 | And a read, once it has committed in its term. |
| Serving.CommitServes | src/raft/node.rs:2204-2300 | A commit answers every waiting write whose entry it applies with what the entry gives on the state before it, every such change with its index, and keeps everyone else waiting; it answers reads only with values of applied states, and no one with Abort. |
| Serving.WritesAnswered | src/raft/node.rs:2204-2300 | On any message of its own term, whether or not it leaves office over it, a leader answers every write and change that it applies in that way. |
| Serving.StepServes | src/raft/node.rs:1618-1942 | The same of any message that leaves it in office; nobody who waits is dropped. |
| Serving.NobodyAborted | src/raft/node.rs:1531-1568 | As long as it stays in office, over messages and ticks, a leader answers no one with Abort and sends only in its own name and term. |
| Protocol.LeaderCompleteness | src/raft/node.rs:2141-2172 | Under the invariant, the log of a later term's leader agrees with that of an earlier one up to all that the earlier committed, and had it from its election on. |
| Protocol.CommitsAgree | src/raft/node.rs:597-632 | A log committed under some term agrees with the log of every later leader up to the committed index. |
| Protocol.CommittedPrefixes | src/raft/node.rs:2133-2195 | Two logs committed by leaders of any two terms are prefixes of one another. |
| Protocol.LogsMatch | src/raft/log.rs:745-781 | Two logs with equal terms at an index agree up to and including it. |
| Protocol.ChosenNotBlocked | src/raft/node.rs:2157-2172 | No entry is both acknowledged by a quorum and ruled out by a quorum that has moved past its term without it. |
| Protocol.ReadsAreFresh | src/raft/node.rs:2404-2474 | A leader that has committed in its own term and has a quorum's confirmation of a read has committed all that any leader had committed when the read came in. |
| Protocol.ConfirmedNotOvertaken | src/raft/node.rs:2421-2457 | A read confirmed by a quorum was taken in before any leader of a later term had committed anything. |
| ProtocolSteps.StandKeeps | src/raft/node.rs:1348-1373 | Standing for election in the next term, with a vote for oneself, keeps the protocol invariant. |
| ProtocolSteps.GrantKeeps | src/raft/node.rs:718-746 | Voting for a candidate with an up-to-date log, when no other vote was cast in the term, keeps the protocol invariant. |
| ProtocolSteps.UpToDateIsSafe | src/raft/node.rs:730-738 | A candidate whose log passes the up-to-date check against a voter either holds what that voter acknowledged in earlier terms or those entries can no longer be chosen. |
| ProtocolSteps.NoOtherWinner | src/raft/node.rs:1192-1209 | A quorum of votes for a candidate means that the term has no leader yet. |
| ProtocolSteps.CrownKeeps | src/raft/node.rs:1090-1117 | Becoming leader on a quorum of votes, with a no-op appended, keeps the protocol invariant. |
| ProtocolSteps.ExtendKeeps | src/raft/node.rs:2022-2036 | A leader appending to its log keeps the protocol invariant. |
| ProtocolSteps.AcceptKeeps | src/raft/node.rs:668-676 | A follower taking over a piece of its leader's log and acknowledging it keeps the protocol invariant. |
| ProtocolSteps.DecideKeeps | src/raft/node.rs:2141-2195 | A leader committing an own-term entry that a quorum acknowledged keeps the protocol invariant; entries of earlier terms are committed only underneath one. |
| ProtocolSteps.LearnKeeps | src/raft/node.rs:623-632 | A follower whose log matches the leader's last index may take over the leader's commit index. |
| ProtocolSteps.ForgetKeeps | src/raft/log.rs:590-614 | Falling back to an earlier commit index, as after a crash, keeps the protocol invariant. |
| ProtocolSteps.AskKeeps | src/raft/node.rs:1808-1816 | Numbering a read and asking the peers to confirm keeps the protocol invariant. |
| ProtocolSteps.ConfirmKeeps | src/raft/node.rs:689-713 | A follower confirming a read number to the leader of its term keeps the protocol invariant. |
| Refinement.SpliceFollowsLeader | src/raft/log.rs:703-805 | Splicing a piece of the leader's log onto a follower that agrees up to its base and its commit index never fails an assertion, and yields a log that is either unchanged and already agreeing or the leader's prefix. |
| Refinement.OnHeartbeatRep | src/raft/node.rs:597-632 | A follower handling a true Heartbeat makes a step of the protocol, answers truthfully and does not panic. |
| Refinement.OnAppendRep | src/raft/node.rs:638-684 | The same for a true Append: acceptance, rejection with a hint, and an Append from a node it does not follow. |
| Refinement.OnReadRep | src/raft/node.rs:689-713 | The same for a true Read. |
| Refinement.OnCampaignRep | src/raft/node.rs:718-746 | The same for a true Campaign, whether the vote is granted or not. |
| LeaderRefinement.StepRefines | src/raft/node.rs:172-207 | A node in any role handling any true message makes a sequence of protocol steps, and everything it sends is true. |
| LeaderRefinement.TickRefines | src/raft/node.rs:211-224 | The same for a tick. |
| NodeInvariant.StepKeepsOk | src/raft/node.rs:172-207 | Whatever message arrives, true or not, in any role and with configuration changes in the log, a node keeps its local invariant: entry numbering, applied <= commit <= last, consistent progress, read and write tables. |
| NodeInvariant.TickKeepsOk | src/raft/node.rs:211-224 | The same for a tick. |
| RaftNode.CommitTarget | src/raft/node.rs:2141-2172 | The new commit index is the highest own-term index that a quorum (of both halves of a joint configuration) holds, and none above it qualifies. |
| RaftNode.MaybeApply | src/raft/node.rs:994-1010 | Applying stops exactly at the commit index, never goes back, and touches nothing but the state machine and the membership state. |
| Process.RawNode.Step | src/raft/node.rs:172-207 | The stateful node, through all its handlers and loops, handles a message of any kind exactly as the function of old state and message says: whole new state and the multiset of messages sent; the local invariant is kept. |
| Process.RawNode.Tick | src/raft/node.rs:211-224 | The same for a tick in any role. |
| Process.Launch | src/raft/node.rs:452-490 | Building a node fails exactly if it is among its own peers; otherwise it restores membership, applies what is committed, and elects a single voter, exactly as `Start` says. |
| Process.LatestMembership | src/raft/node.rs:396-420 | The scan for the last configuration entry finds the configuration in force at start-up, and whether it is settled. |
| Process.RawNode.ApplyCommitted | src/raft/node.rs:994-1010 | The apply loop reaches the same state machine and membership as the recursive definition. |
| Process.RawNode.AbortForwardedRequests | src/raft/node.rs:979-989 | The loop answers every forwarded request with one Abort and empties the set. |
| Process.RawNode.StepFollower | src/raft/node.rs:564-908 | The follower's whole message loop, later terms included. |
| Process.RawNode.StepCandidate | src/raft/node.rs:1120-1258 | The candidate's whole message loop. |
| Process.RawNode.IntoLeader | src/raft/node.rs:1090-1117 | Becoming leader: fresh tables, a no-op entry, commit if possible, a heartbeat. |
| Process.RawNode.MaybeSendAppend | src/raft/node.rs:2477-2584 | What one peer is sent and how its progress moves: nothing, a probe, or a batch. |
| Process.RawNode.OfferLast | src/raft/node.rs:2022-2036 | The loop over peers after an append sends to exactly those whose next index is the new entry. |
| Process.RawNode.QuorumReadSeq | src/raft/node.rs:2419-2457 | The candidate loop finds the greatest read number that a quorum has confirmed: a number up to the leader's own is confirmed if and only if it is at most that. |
| Process.RawNode.MaybeRead | src/raft/node.rs:2404-2474 | The queue loop answers the same reads in the same way as asking of each one whether a quorum confirmed it. |
| Process.RawNode.FindCommit | src/raft/node.rs:2138-2172 | The downward loop finds the commit target. |
| Process.RawNode.ApplyAndAnswer | src/raft/node.rs:2204-2300 | The apply loop answers each waiting client once and collects the configurations committed on the way, in log order. |
| Process.RawNode.FollowUp | src/raft/node.rs:2302-2327 | The loop over committed configurations: Simple proposed after Joint, tables synced, own removal noticed. |
| Process.RawNode.MaybeCommitAndApply | src/raft/node.rs:2133-2327 | Committing, applying, answering, following up and the first read release of a term come to `CommitAndApply`. |
| Process.RawNode.StepDownTo | src/raft/node.rs:1531-1566 | The three abort loops answer every pending request of the leader, and the node is a leaderless follower. |
| Process.RawNode.StepLeader | src/raft/node.rs:1618-1940 | The leader's whole message loop, stepping down included. |
| LogSpec.SpliceMeaning | src/raft/log.rs:703-805 | If splicing is defined, the log is unchanged when all supplied entries are present, and otherwise is what preceded them followed by all of them; numbering, term order and the committed prefix are kept. |
| LogSpec.SpliceDefined | src/raft/log.rs:713-784 | Splicing fails no assertion if and only if the entries are contiguous, ascending, within the term, touch a stored base, contradict no stored entry of the same term, and overwrite nothing committed. |
| LogSpec.ContinuingFromFirst | src/raft/log.rs:731-743 | Entries that continue a log from its first index can be spliced if and only if, besides fitting, that index is 1: after a snapshot the entry they follow is gone. |
| LogSpec.MatchingIffHolds | src/raft/log.rs:745-773 | The scan over the overlap skips exactly the longest run of supplied entries that the log already holds. |
| RaftLog.LoadedOf | src/raft/log.rs:187-329 | What opening reads off a disk that holds a contiguous log around its snapshot point, commit index below the snapshot included. |
| RaftLog.RaftLog.constructor | src/raft/log.rs:187-329 | Opening computes its cached fields from the cells and the outermost stored entries. |
| RaftLog.RaftLog.SetTermVote | src/raft/log.rs:487-511 | Succeeds if and only if the term is positive and not older and no other vote of the term is lost; then term and vote are set and durable; cached fields still match the disk. |
| RaftLog.RaftLog.AppendEntry | src/raft/log.rs:527-569 | Appends exactly one entry of the current term with the next index, durably under fsync; fails only in term 0 or with both payloads. |
| RaftLog.RaftLog.Get | src/raft/log.rs:617-620 | Finds the entry at an index exactly when the log holds it. |
| RaftLog.RaftLog.Commit | src/raft/log.rs:590-614 | Commits exactly the stored indexes that do not go back; the cached term is that entry's. |
| RaftLog.RaftLog.Has | src/raft/log.rs:623-648 | True exactly for a stored entry of that term or for the snapshot point itself. |
| RaftLog.RaftLog.Scan | src/raft/log.rs:651-682 | Yields the stored entries of the range in index order. |
| RaftLog.RaftLog.ScanApply | src/raft/log.rs:685-695 | Yields the entries after the applied index up to the commit index. |
| RaftLog.RaftLog.LatestMembership | src/raft/log.rs:572-587 | Finds the last entry that carries a configuration, if any does. |
| RaftLog.RaftLog.SkipPresent | src/raft/log.rs:745-773 | The comparison loop computes `Matching`. |
| RaftLog.RaftLog.Overwrite | src/raft/log.rs:783-801 | Writing the rest and deleting the old tail leaves cells and fields that hold exactly the spliced log. |
| RaftLog.RaftLog.Splice | src/raft/log.rs:703-805 | The whole operation equals the specification, fails exactly where it is undefined, and keeps fields and disk in agreement and crash-safe. |
| RaftLog.RaftLog.CompactTo | src/raft/log.rs:351-390 | Fails exactly beyond the commit index; drops exactly the prefix; fields and disk agree afterwards if and only if the point is not 0 after an earlier compaction and not the last entry with a foreign term. |
| RaftLog.RaftLog.ResetWithSnapshot | src/raft/log.rs:393-459 | Leaves an empty log at the snapshot point; reopening would find the same fields if and only if the index is positive or the term is 0. |
| RaftLog.CrashKeepsAllButCommit | src/raft/log.rs:590-614 | If all unflushed writes are ascending commit marks, losing any suffix of them changes nothing but the commit mark, which only falls back. |
| RaftLog.Reopen | src/raft/log.rs:187-329 | After a crash between operations that keeps any number of writes beyond the last flush, opening finds the same term, vote, entries, first and last index and snapshot base, and at most an older commit index; without loss, exactly the same log. |
| Storage.CrashLosesOnlyCommit | src/storage/bitcask.rs:413-513 | The same on the bytes of the file: with the log's writes as records and the file cut at any byte behind the last flush, parsing finds the records of a prefix of the writes, the map shows exactly those cells and no other disk, and opening the log on them finds the same log with at most an older commit index. |
| Storage.ShowsOne | src/raft/log.rs:95-118 | A map shows the cells of one disk at most. |
| Storage.WritesShow | src/raft/log.rs:95-118 | Replaying the records of any writes gives a map that holds the encoded key and value of exactly the cells stored, and nothing else. |
| LogKeys.EncodeOrder | src/raft/log.rs:95-118 | The byte order of encoded keys is: entries by index, then the four metadata keys; and encoding is injective. |
| LogKeys.EntryRangeHolds | src/raft/log.rs:651-682 | The byte range of an index range holds exactly the entry keys in it. |
| LogKeys.ScanVisitsInOrder | src/raft/log.rs:651-682 | Scanning the byte range visits exactly the entries lo..hi in index order, whatever metadata is stored. |
| Bytes.U64Order | src/raft/log.rs:95-118 | Big-endian encoding turns numeric order into byte order. |
| Bytes.PrefixRangeIsPrefix | src/storage/engine.rs:14-33 | A key lies in the prefix range if and only if it starts with the prefix, also for prefixes ending in 0xff bytes. |
| Records.Layout | src/storage/bitcask.rs:530-550 | A record is the key length and the value length, four bytes each with the most significant first and all ones for a tombstone, then the key, then the value. |
| Records.NoCrash | src/storage/bitcask.rs:413-513 | Parsing a file of whole records finds exactly those records and the end of the file. |
| Records.ScanAppended | src/storage/bitcask.rs:531-562 | Appending one encoded record to a well-formed file adds exactly that record to what parsing finds. |
| Records.ScanOfCut | src/storage/bitcask.rs:413-513 | Cutting a well-formed file at any byte, parsing finds exactly the records that lie wholly before the cut. |
| Records.WholeIsLongest | src/storage/bitcask.rs:470-500 | That number of records is the longest prefix that fits. |
| Records.CrashRecovery | src/storage/bitcask.rs:413-513 | For any records and any cut: parsing finds the longest whole prefix, and the trimmed file is its encoding. |
| Records.ScanOfTrimmed | src/storage/bitcask.rs:413-513 | Trimming any file at all, well-formed or not, to where parsing stopped leaves what parsing finds unchanged. |
| Records.LiveFits | src/storage/bitcask.rs:242-258 | Live size never exceeds total size, with equality if and only if no record has replaced or deleted another. |
| Records.CompactionKeeps | src/storage/bitcask.rs:263-298 | The records that compaction writes have the same contents and exactly the live size. |
| BitCask.BitCask.constructor | src/storage/bitcask.rs:91-101 | Opening any bytes gives a valid store of the records that parsing finds, and trims the file to them. |
| BitCask.BitCask.BuildKeydir | src/storage/bitcask.rs:413-513 | The offset loop builds an index that points at the value of every live key, and trims a torn tail. |
| BitCask.BitCask.ReadEntry | src/storage/bitcask.rs:424-468 | One entry is parsed, or found torn, as the record format says. |
| BitCask.BitCask.WriteEntry | src/storage/bitcask.rs:531-562 | Appends exactly the record's encoding and returns where its value lies. |
| BitCask.BitCask.Set | src/storage/bitcask.rs:231-239 | The map gains the pair, the file the record. |
| BitCask.BitCask.Delete | src/storage/bitcask.rs:174-182 | The map loses the key, the file gains a tombstone. |
| BitCask.BitCask.Get | src/storage/bitcask.rs:197-207 | Returns the latest value, or none. |
| BitCask.BitCask.Scan | src/storage/bitcask.rs:210-228 | Yields exactly the live pairs in the range, in key order. |
| BitCask.BitCask.ReadStatus | src/storage/bitcask.rs:242-258 | Counts keys, live and total bytes; live bytes never exceed the file, so garbage does not underflow. |
| BitCask.BitCask.WriteLive | src/storage/bitcask.rs:280-298 | The rewrite loop makes a new store of exactly the live pairs in key order. |
| BitCask.BitCask.Compact | src/storage/bitcask.rs:263-298 | The map is unchanged, and the file is exactly as long as the live data. |
| BitCask.BitCask.MaybeCompact | src/storage/bitcask.rs:104-160 | Compacts exactly when there is garbage and it reaches both thresholds; never changes the map. |
| BitCask.Reopen | src/storage/bitcask.rs:91-101 | Reopening after a cut at any byte gives the map of the longest prefix of whole records and trims to it; with no cut, the same map and file. |
| Sessions.ExactlyOnce | src/raft/session.rs:107-187 | Applying any log gives the data that comes of running exactly the entries whose serial exceeds all earlier ones of their client (and those without session), and applied is the last index. |
| Sessions.ReadsLastEffect | src/raft/kv.rs:105-118 | Reading a key after any log gives the value of the last entry that takes effect and puts the key, and none exactly if there is no such entry; a scan gives exactly the keys with such entries, with their values. |
| Sessions.TableIsLatest | src/raft/session.rs:116-180 | The session table holds, for exactly the clients seen, the serial and reply of their latest entry that took effect. |
| Sessions.Answers | src/raft/session.rs:116-187 | An entry that takes effect is answered with its own index; a retry of a client's current serial gets the index of the entry that took effect, an older one gets nothing, and neither changes the data. |
| Sessions.SnapshotPlusTail | src/raft/session.rs:197-234 | Restoring a snapshot taken at or after its recorded index and applying the committed rest equals replaying the log from index 1, data and sessions alike. |
| Sessions.OlderBytes | src/raft/kv.rs:128-138 | With a recorded index beyond the snapshot's own, restoring gives the full replay if and only if the entries in between are harmless to the snapshot: no session entry is new to its table, and the last value each other put gives a key is there already. |
| Sessions.PassingOver | src/raft/session.rs:107-187 | Running entries leaves data and session table as they are if and only if they are harmless in that sense. |
| Sessions.StartsFromSnapshot | src/bin/raft_node.rs:76-97 | After any sequence of snapshots, stopped between any two of their writes, start-up restores bytes at least as new as the index, and applying the committed rest gives the full replay. |
| Sessions.OlderBytesLosePut | src/raft/kv.rs:128-138 | A concrete log where they would. |
| Sessions.ReplayInTwo | src/raft/session.rs:107-187 | Replay may be cut at any index. |
| Sessions.SessionState.Apply | src/raft/session.rs:107-187 | The stateful session layer over the store applies an entry as `Machine.Apply` says. |
| Sessions.SessionState.Restore | src/raft/session.rs:218-234 | Restoring replaces store and table, with the newer of the two indexes. |
| Sessions.SessionState.CatchUp | src/raft/node.rs:994-1010 | Applying what is committed and not yet applied takes a replayed state to the replay of the committed log. |
| Machine.ReplayApplied | src/raft/kv.rs:100-101 | The applied index follows every entry of a log, duplicates and no-ops included. |
| CatchUp.Exchange | src/raft/node.rs:2477-2584 | From any matching pair of logs the append exchange ends, by match index and then base of the outstanding batch, with everything acknowledged and the follower holding the leader's log. |
| CatchUp.NodesCatchUp | src/raft/node.rs:638-684 | The same over the two nodes: some finite exchange in which each Step handles what the other sent ends with the leader still in office, everything acknowledged, and the follower holding the leader's log. |
| CatchUp.NodesRound | src/raft/node.rs:1694-1764 | One exchange of messages between two nodes: the follower's Step answers the batch, and on the leader's Step either all is acknowledged or the next batch is on its way with a higher match index or an earlier base. |
| CatchUp.Round | src/raft/node.rs:638-684 | One round of it: an acceptance raises the match index, a rejection moves the base strictly back, the pair stays matching, and the leader stops exactly when everything is acknowledged. |
| CatchUp.Rejected | src/raft/node.rs:678-684 | The rejection hint lies strictly after what is known to match and before the next index, so it always moves the leader. |
| CatchUp.FollowerReceives | src/raft/node.rs:638-684 | The node's handling of an Append is the follower's half of the exchange. |
| CatchUp.LeaderReacts | src/raft/node.rs:1694-1764 | The node's handling of an Append response is the leader's half. |
| CatchUp.HeartbeatStarts | src/raft/node.rs:1676-1683 | A heartbeat response without a match starts the exchange with a peer that is behind. |
| CatchUp.HeartbeatCatchesUp | src/raft/node.rs:597-632 | From any heartbeat on, over the two nodes: the follower's answer either acknowledges everything at once, or makes the leader start an exchange that ends with everything acknowledged; the follower then holds the leader's log. |
| CatchUp.PairInRuns | src/raft/node.rs:1412-1458 | In every run, a leader and a peer in its term satisfy what the exchange needs. |
| Configuration.QuorumIsMajority | src/raft/membership.rs:52-65 | A set is a quorum of a configuration if and only if it holds more than half of its voters. |
| Configuration.JointNeedsBoth | src/raft/membership.rs:114-124 | During a change a set is a quorum if and only if it holds more than half of the old voters and more than half of the new ones. |
| Configuration.OddSplits | src/raft/membership.rs:52-65 | However an odd number of voters is split in two, exactly one part is a quorum. |
| Configuration.MajoritiesIntersect | src/raft/membership.rs:52-65 | Any two quorums of one configuration share a voter. |
| Configuration.AdjacentQuorumsIntersect | src/raft/membership.rs:114-124 | Any quorum of a joint configuration meets every quorum of its old half, of its new half and of itself. |
| Reconfiguration.StepInParts | src/raft/node.rs:1618-1940 | Whatever a leader is handed, if it stays in office it appends at most one entry, a change only if one was requested and allowed, and may then commit; nothing else touches log, configuration or state machine. |
| Reconfiguration.CommitKeepsOrder | src/raft/node.rs:2102-2130 | A commit keeps the configurations in order (Simple, Joint, Simple, each Joint between its neighbours, a Simple one perhaps repeated) if and only if every Joint among those it applies has the target of the configuration in force. |
| Reconfiguration.OrderKept | src/raft/node.rs:2041-2130 | Over the whole time in office of any leader that starts in order: it is in order later if and only if no step up to then applied a Joint with another target than that of the configuration then in force. |
| Reconfiguration.OrderDecided | src/raft/node.rs:2041-2130 | The same decided by the start, for any leader that inherited what it has not applied: after its first commit its configurations are in order if and only if it inherited no unapplied Joint, or all of them have the target of the configuration in force and no further change was accepted before that commit. |
| Reconfiguration.SettlingStays | src/raft/node.rs:2041-2130 | A leader whose last configuration alone may be an unapplied Joint stays in order, and stays such a leader, over its whole time in office. |
| Reconfiguration.ChangesOneAtATime | src/raft/node.rs:2041-2130 | A leader that starts with at most one change unapplied also keeps that, and its pending flag set exactly while a configuration is unapplied. |
| Reconfiguration.ElectedStart | src/raft/node.rs:1090-1117 | Any candidate in order that wins an election starts as OrderDecided asks, with what it had not applied; a lone voter, which commits at once, is in order after that if and only if every Joint it had not applied has the target of the configuration in force. |
| OlderTargets.OlderTargetReturns | src/raft/node.rs:2302-2327 | A concrete leader of term 2 with log [no-op, Joint, Simple, Joint, Simple, own no-op] that was in order and is not after committing it: the older target is appended again behind the newer one. |
| OlderTargets.EarlyChange | src/raft/node.rs:2041-2064 | The same leader with the first change applied has no change pending, accepts a third one before the second is applied, and after the commit has two Simple configurations next to each other of which some quorums do not meet. |
| Reconfiguration.NeighboursOverlap | src/raft/membership.rs:114-124 | Quorums of neighbouring configurations in that chain share a voter of both. |
| Reconfiguration.ChainCommits | src/raft/node.rs:2102-2130 | With at most one change unapplied, committing a Joint configuration is followed at once by its Simple one, and at most one change is unapplied again. |
| Reconfiguration.RemovedLeaderLeaves | src/raft/node.rs:2302-2327 | Any leader leaves on committing if and only if it commits a Joint configuration whose target excludes it, or the first it commits is Simple while a Simple one that excludes it is in force; the Simple successors of the Joint ones are only the uncommitted end of the log by then. |
| Adoption.SplicingSettles | src/raft/node.rs:672-674 | After splicing, the configuration in force is the log's last one if and only if the entries neither revive an older one nor drop the one in force. |
| Adoption.RestoreMeans | src/raft/node.rs:396-436 | What a restart puts in force is the configuration of the last entry that carries one, settled if and only if it is Simple and committed. |
| Adoption.ApplyingSettles | src/raft/node.rs:994-1010 | Applying committed entries on a follower ends a change if and only if the last configuration among them is Simple. |
| Adoption.AppendSettles | src/raft/node.rs:638-684 | The same of a follower handling any Append of its leader. |
| Adoption.StaleAppendRevives | src/raft/node.rs:379-393 | A follower with log [no-op, Joint, Simple] on which a delayed copy of the Append that carried the Joint entry brings that configuration back. |
| Adoption.DroppedStaysInForce | src/raft/node.rs:379-393 | A follower with log [no-op, Joint] that keeps the Joint configuration in force after a new leader's no-op has replaced the entry. |
| CheckQuorum.CountersAreAges | src/raft/node.rs:1576-1614 | Over any run of any leader, whatever its log inherited, each peer's saturating counter is the number of ticks since it last responded or was added. |
| CheckQuorum.OfficeNeedsQuorum | src/raft/node.rs:1945-1996 | After each tick that leaves any multi-voter leader in office under CheckQuorum, it and the peers heard from within the window form a quorum. |
| CheckQuorum.LeavesIff | src/raft/node.rs:1955-1993 | A tick ends a leader's office if and only if CheckQuorum is on, there are other voters, and those not yet timed out are no quorum. |
| Requests.StepConserves | src/raft/node.rs:1618-1940 | Over any message a leader survives without panicking: pending before plus taken in equals pending after plus answered, as multisets of requests. |
| Requests.TickConserves | src/raft/node.rs:1945-1996 | Over any tick of a leader: pending before equals pending after plus answered. |
| Requests.StepDownAborts | src/raft/node.rs:1531-1566 | Stepping down answers exactly what was pending in the three tables, and nothing is pending after. |
| Requests.ReignConserves | src/raft/node.rs:1770-1874 | Over a whole term in office: everything taken in so far is answered or pending, and each once. |
| Requests.LeavingAnswersAll | src/raft/node.rs:1531-1566 | When the leader leaves office, everything it ever took in has been answered exactly once. |
| Requests.ApplyNextBalanced | src/raft/node.rs:2204-2300 | Applying an entry moves its waiting client from the tables to the answers. |
| Requests.AnswerReadsBalanced | src/raft/node.rs:2457-2470 | Answering reads moves exactly the answered ones out of the queue. |

## Left out

- Transport, framing, threads, channels, the node loop, configuration files and the command line: input and output only. File locks, renaming and seek buffering are taken to work.
- bincode and UUIDs: encoding is taken to be injective and entries are modelled after decoding, so a plain command whose bytes begin like a session header is not modelled. Commands in the log are well-formed writes; undecodable or read-type ones are not.
- InstallSnapshot between nodes, and compaction during a cluster run: `splice` and `maybe_send_append` need a stored base entry, so the cluster theorems assume a snapshot threshold of 0. Snapshots are treated locally in RaftLog and Sessions.
- Whole-run safety across membership changes: a configuration removed by splicing stays in force (Adoption) and changes can fall out of order (OlderTargets), so the cluster theorems fix the configuration.
- Liveness and fairness: nothing says that messages arrive. CatchUp shows that the append exchange ends, with one batch under way at a time; Elections.CanElect and Availability.CanCommit show what votes and acknowledgements of a majority bring about once they are handed over.
- A batch size (`max_append_entries`) of 0 in cluster runs: an empty Append at base 0 would then be acknowledged with index 0, on which the leader panics. Of the single-node theorems only those of CatchUp share the bound.
- Crashes inside one log operation, whose writes are not atomic.
- Overflow of 64-bit terms, indexes and read numbers, which are unbounded here. Of the 8-bit tick counters only the saturating per-peer one is bounded; CheckQuorum.OfficeNeedsQuorum and CheckQuorum.CountersAreAges assume the window and the counters to fit in 8 bits, as their type makes them.
- Process.RawNode.AbortForwardedRequests: does not model the order of the answers, which the program sorts by id; the same holds for the abort loops of StepDownTo and for sends to several peers, all compared as multisets.
- Process.RawNode.HandleRequest: leaves out the storage sizes in a status answer.
- Process.RawNode.Step: keeps log and state machine as values in the node object, where the program holds a log object and a state machine object; those are the classes of RaftLog and Sessions.
- RaftLog.Reopen: the engine under the log object is typed cells; Storage.CrashLosesOnlyCommit states the same about the bytes of the file, where a value's encoding is any injective function. Snapshot bytes are not among the cells.
- Cluster.StartRefines: a restart takes term, vote, entries and an older commit index as what Storage and RaftLog show to survive; the cluster's nodes do not hold RaftLog objects.
- RaftLog.RaftLog.CompactTo: leaves out raising the last index to the snapshot point, which never happens because that point is committed and hence stored.
- BitCask.BitCask.MaybeCompact: compares the garbage fraction as an exact real, where the program divides in floating point.
- Availability.CanCommit: leaves out logs with configurations, because committing one changes what a majority is; Leading.AcknowledgedCommits and Serving.CommitServes cover single steps with them.
- Elections.VoteCounts: leaves out the exact messages of a lone voter's election (Elections.AloneTakesOffice has what it comes to) and a batch size of 0.
- The percentage form of the garbage statistic and the names in status structures.
