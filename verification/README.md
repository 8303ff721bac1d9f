# QuorumKV: consensus core, log, sessions and recovery

QuorumKV is a replicated key-value store built on a from-scratch Raft core. This
project models its consensus core, the runtime that drains the core's persistence
actions, the write-ahead log (WAL), the Client Session state machine and the
recovery that puts them back together, and proves safety over whole runs of a
Cluster of any finite size.

`dafny verify dfyconfig.toml` checks everything.

## How the parts fit

- `Types`, `Messages`, `Node`: the Node as a value, and every handler of
  `internal/raft/raft.go` as one atomic step: new Node, durable writes in order,
  emitted effects in order. The pending-persistence bookkeeping is already drained.
- `Protocol`, `ProtocolProofs`: Raft reduced to its safety argument, with the votes,
  Leader logs, acknowledgements and commits kept as history, and its invariant.
- `Cluster`: Nodes, state machines, WAL records and the set of all packets ever sent. A
  transition is one whole runtime step, or a crash after any prefix of its durable writes
  followed by a restart from what replaying the WAL records gives. Loss, duplication and
  reordering need no transition of their own: packets stay in the set and are delivered
  never, again, or in any order. `Rules` says which of two exclusions a run respects.
- `Coupling` to `Crashes`: every transition of a Cluster is one or more transitions of
  the protocol. `Runs`, `Reads` and `Visible` draw the theorems from that; `Admission`
  shows that the WAL takes every write. `Votes`, `Prevotes` and `Tenure` need no coupling
  and hold of every run.
- `Stage`, `Divergence`, `Resurrection`, `Stalled`: concrete runs that show what goes wrong.
- `Core`, `Draining`, `Refinement`, `RaftNode`, `Runtime`: the core as the code has it,
  with pending maps and completions; the class `RaftCore` whose methods change it in
  place, each proved equal to the value-level handler; the drain loop over core and
  WAL; and the proof that the drained core takes exactly the atomic step of `Node`.
  `Agreement` relates a WAL to a core that starts at a later Snapshot.
- `WalReplay`, `WalHistory`, `HardRecords`, `WalCuts`, `WalCompaction`, `WalFrames`,
  `WalStore`: records and replay, when replay is exact, what it always keeps, torn
  journals, deletion of segments, bytes, and the class `Wal`.
- `Sessions`, `AtMostOnce`, `SessionStore`, `Recovery`: the replicated state machine,
  its Snapshots, and opening a Node.

## Where the code falls short of a property

Four properties one would want are false of the code as it stands. Each is kept as
the code has it, shown false on a concrete input, and proved under an exact condition.

- **Acknowledgements of a fallen-back Leader.** A Follower rejects a request of an earlier
  Term with conflict hint (0, 0) and its own current Term
  (`internal/raft/raft.go:996-999`). If the Node that sent the request leads again in
  that current Term and has no request outstanding, it acts on the rejection, falls
  back to index 1 and sends a batch bounded by bytes. When that batch ends inside the
  shared prefix the Follower acknowledges its whole, diverged log
  (`internal/raft/raft.go:1050-1053`). `Divergence.SafetyNeedsTheGuard` is a run of 31
  steps in which this makes two Nodes apply different entries at index 3. The first
  exclusion, `Cluster.Guarded`, is exactly the delivery on which a Leader acts, in its own
  Term, on a rejection with conflict index 0. `Repair.AckTrueIff` gives the exact condition
  under which one acknowledgement is true.
- **WAL replay.** A truncation recorded before the newest checkpoint is judged against
  that checkpoint. If it starts at or below the checkpoint's Snapshot index although the
  log reached beyond, it is skipped and removed entries return; if it starts between the
  Snapshot index and the commit index, or if entries above the Snapshot were written after
  removed ones returned, recovery fails. `WalHistory.RecoverExactIff` says exactly which
  histories recover and `WalHistory.RecoverCases` which of the two happens to the others;
  `Runs.RestartExactIff` and `Runs.RestartCases` say it of every crash in every reachable
  state. An ordinary Follower can have a history that does not recover:
  `Resurrection.SafetyNeedsFaithfulRestarts` is a run of 32 steps in which a replaced entry
  comes back and two Nodes apply different entries at index 2. The second exclusion,
  `Cluster.RestartGuarded`, is exactly the restart from such a journal.
- **Compaction in the background.** A Snapshot is captured at the last applied index, but
  the WAL is compacted later, and a Snapshot received in between may have been installed
  (`internal/node/runtime_loop.go:180-205`). The WAL compares the captured index with its
  commit index only (`internal/wal/wal.go:360`), so the newest checkpoint can go back below
  an earlier one; from then until the next checkpoint the WAL cannot be recovered
  (`WalHistory.BackwardsFails`). `WalStore.Wal.Compact` states both sides: at or above the
  previous Snapshot the WAL stays sound, below it recovery fails.
- **Conflict repair.** If a Leader that has not compacted has a next index at or below its
  peer's Snapshot of more than one entry, every request is refused for ever. A rejection
  delayed until the peer has caught up and compacted brings this about without either
  exclusion being touched (`Stalled.RepairCanStick`). `Repair.RepairStuckIff` gives the
  exact condition; at a Leader that has compacted, repair ends in a Snapshot transfer.

A guarded run is one with neither excluded event, and a reachable state is a state of
one. The theorems of `Runs`, `Reads` and `Visible` are about guarded runs, and the two
runs above show that each exclusion is needed without the other. Election
safety, the durability of Terms and votes, the pre-vote property and the growth of a
Leader's log are proved of every run, both kinds of event included.

## Modelling choices

- Terms, indices, sequences and request numbers are natural numbers: 64-bit overflow is
  not modelled.
- The set of Nodes is any finite set, not just three.
- ReadIDs are fresh for one Leader in one Term, as the runtime makes them. Timers are
  events that may come at any time. What a Snapshot chunk staged is an input of the
  handler, chosen by the environment.
- Compaction captures and installs a Snapshot in one step, so in runs it never goes back.
  In runs a restart uses the Snapshot of the newest checkpoint. Recovery may choose a later
  committed file: `Recovery.AnyCommittedSnapshotWillDo` shows that it leads to the same
  state, and `Recovery.Reopen` and `Runtime.RaftRuntime` go on from there. A Node whose
  recovery fails does not come back.
- A crash falls between two writes of a step; `WalCuts.AnyCutRecovers` shows that a torn
  journal always recovers like one cut between writes.
- The checksum is an arbitrary function of the record body, so no claim is made about
  detecting corruption. A WAL segment is a sequence of whole writes at the level of
  replay and a sequence of bytes at the level of frames.
- `RaftCore` keeps the fields the protocol speaks of together in one record field,
  `node`, and the cached log end, the durable positions and the pending maps beside it.
- A member of a class written as a row below states its whole new state against a
  value-level specification function; what is proved about those functions is in the
  other rows.

## Model

| member | source | states |
|---|---|---|
| Runs.StateMachineSafety | internal/simulation/randomized.go:436-455 | in every state any guarded run reaches, two Nodes that ever applied an entry at one index applied the same entry, across loss, duplication, reordering, Snapshots, compaction, crashes and restarts from what the WAL replays to |
| Runs.OneHistory | internal/raft/raft.go:1461-1504 | for every guarded run there is one history per state, only ever extended, that every Node's committed log, applied entries, state machine and Snapshot image follow |
| Runs.MachinesAgree | internal/simulation/randomized.go:490-549 | Nodes that have applied equally far are in the same state-machine state, however they got there |
| Runs.MajorityHoldsHistory | internal/simulation/randomized.go:490-549 | at every moment a majority holds everything ever committed, in its log or behind its Snapshot |
| Runs.LeadersComplete | internal/raft/raft.go:806-857 | what any Node has committed at one moment is held, entry for entry, by every Leader of its own or a later Term at every later moment |
| Runs.LogsMatch | internal/raft/raft.go:996-1059 | Nodes holding an entry of the same Term at one index hold the same entries at every index up to it, and agree on the Term wherever both know it, the Terms of their Snapshots included |
| Runs.TermsAscend | internal/raft/raft.go:1337-1355 | Terms never decrease along a log, nor from the Snapshot position into it |
| Visible.AcksTruthful | internal/raft/raft.go:1043-1059 | in every guarded run, every acknowledgement ever sent is true, whatever happened to either side since: when it was sent the Follower was in its Term and held exactly that much, it was addressed to the Leader of that Term, and it agrees up to there with that Leader's log whenever the Leader is looked at, which from then on reaches as far |
| Runs.RunExplained | internal/simulation/randomized.go:83-87 | every state of every guarded run is coupled to a state of the abstract protocol, those states only grow, and every Node's WAL records are exactly those of an accepted history whose live state is the Node's durable state |
| Steps.RunOk | internal/node/raft_runtime.go:82-169 | one whole runtime step of any Node on any admissible input keeps the coupling |
| Crashes.CrashOk | internal/simulation/randomized.go:568-599 | stopping after any prefix of a step's durable writes and restarting from exactly those keeps the coupling: every earlier vote, acknowledgement and applied index is honoured, and nothing of the step was sent |
| Runs.RestartExactIff | internal/wal/wal.go:616-649 | wherever a crash interrupts a step in a reachable state, replaying the WAL records returns exactly the interrupted durable state if and only if the newest checkpoint judges every earlier truncation correctly |
| Runs.RestartCases | internal/wal/wal.go:616-649 | in every reachable state, wherever a crash interrupts a step, what was written decides which of three things happens: replay is exact, or it fails and the Node does not come back, or it returns the interrupted state with removed entries back in its empty log |
| Runs.WritesAlwaysAccepted | internal/wal/wal.go:89-183 | in every reachable state the WAL accepts every write of every step |
| Votes.ElectionsAreSafe | internal/raft/raft.go:747-857 | in every run without exception at most one Node is ever elected in a Term, and only that Node leads in it |
| Votes.VotesAreNeverForgotten | internal/raft/raft.go:763-775 | no step and no restart from the WAL, in any run, lowers a Term or changes a vote once given in it |
| Votes.RecoversVote | internal/wal/wal.go:746-760 | at the end of any run under any rules, wherever a crash interrupts the next step, a replay of the WAL that succeeds returns the Term and vote of before or of after the step, even where it misjudges the log |
| HardRecords.AfterWrites | internal/wal/wal.go:746-760 | as long as hard states are saved forward, any further writes leave records from which every successful recovery returns the hard state saved last |
| Votes.VoteRequestLawful | internal/raft/raft.go:806-824 | a vote request raises the Term or keeps the vote, and whatever is granted or saved is the vote the Node then holds |
| Votes.VoteReplyLawful | internal/raft/raft.go:826-857 | a Node counts only its own vote, those it had in this Term and the one just received, and leads only with a majority of them |
| Tenure.TenureOnlyAppends | internal/raft/raft.go:1422-1450 | in every run without exception, between two moments through which a Node leads one Term its log loses nothing but what it compacts and only grows |
| Prevotes.NoPreVotesNoTerm | internal/raft/raft.go:707-761 | in every run without exception, a Term for which no majority ever grants a pre-vote is never entered by any Node |
| Prevotes.TermsNeedPreVotes | internal/raft/raft.go:707-745 | in every run without exception, any positive Term any Node is in was granted a pre-vote by a majority for one candidate |
| Reads.ReadsLinearizable | internal/raft/raft.go:1200-1212 | a confirmed read carries an index at least as high as anything any Node had committed when the read was accepted, and the confirming Node has applied that far |
| Reads.HighCoversAll | internal/raft/raft.go:924-933 | the recorded height a read is compared with is an upper bound on every commit index any Node ever had |
| Reads.RecoveryAnswersNothing | internal/raft/raft.go:1498-1522 | a recovering Node confirms no read |
| Leaders.ReadCovers | internal/raft/raft.go:1506-1522 | once a majority still in the Term acknowledged the read, the Leader's commit index covers everything committed before it was asked |
| Divergence.SafetyNeedsTheGuard | internal/raft/raft.go:1061-1094 | a concrete run of three Nodes, without a misjudged restart, in which the excluded delivery makes two Nodes apply different entries at one index |
| Resurrection.SafetyNeedsFaithfulRestarts | internal/wal/wal.go:827-845 | a concrete run of three Nodes, without the excluded delivery, in which a restart from a misjudged journal makes two Nodes apply different entries at one index |
| Repair.AckTrueIff | internal/raft/raft.go:1043-1054 | for any Leader and Follower of one Term, an acknowledgement is true if and only if the request reached past what both logs share or the Follower's log was a prefix of the Leader's |
| Repair.RepairIsHandlers | internal/raft/raft.go:1010-1017 | the request, hint and retry the repair theorems speak of are what the two handlers compute |
| Repair.RetryLower | internal/raft/raft.go:1380-1406 | above the Follower's Snapshot every rejection strictly lowers the next index, and never to the Snapshot or below |
| Repair.RepairConverges | internal/raft/raft.go:1380-1406 | repair started above the Follower's Snapshot never gets stuck |
| Repair.RepairStuckIff | internal/raft/raft.go:1061-1082 | for any Leader and Follower of one Term, repair gets stuck if and only if the Leader has not compacted and its next index is at or below a Snapshot of more than one entry |
| Stalled.RepairCanStick | internal/raft/raft.go:1422-1443 | a concrete run with neither excluded event reaches a Leader and a Follower between which every request is refused for ever |
| Repair.RoundsBounded | internal/raft/raft.go:1380-1406 | repair takes at most one rejection more than there are Terms among the Follower's entries beyond what it shares with the Leader |
| Repair.ReachableFacing | internal/raft/raft.go:958-994 | the hypotheses of the repair theorems hold of every Leader and every other Node of its Term in every reachable state |
| ProtocolProofs.LeaderCompleteness | internal/raft/raft.go:1246-1252 | in the abstract protocol a committed point is in the log of every Leader of an equal or later Term |
| ProtocolProofs.CommitInv | internal/raft/raft.go:1461-1478 | committing an index of the current Term that a majority acknowledged keeps the invariant |
| ProtocolProofs.AcceptInv | internal/raft/raft.go:1043-1054 | replacing a log by a prefix of the current Leader's log keeps the invariant |
| ProtocolProofs.ElectInv | internal/raft/raft.go:837-857 | electing a Candidate with a majority of votes keeps the invariant |
| ProtocolProofs.VoteInv | internal/raft/raft.go:806-824 | voting for an up-to-date Candidate keeps the invariant |
| ProtocolProofs.StandInv | internal/raft/raft.go:747-761 | standing for election keeps the invariant |
| ProtocolProofs.AckInv | internal/raft/raft.go:1050-1053 | acknowledging a prefix of the Leader's log keeps the invariant |
| ProtocolProofs.ExtendInv | internal/raft/raft.go:859-922 | a Leader extending its own log keeps the invariant |
| Elections.VoteRequestOk | internal/raft/raft.go:806-824 | the vote handler is one or two transitions of the protocol and all it sends fits the new state |
| Elections.VoteReplyOk | internal/raft/raft.go:826-857 | so is the vote reply handler, including taking office with the no-op entry |
| Elections.ElectionTimeoutOk | internal/raft/raft.go:707-761 | so is the election timeout |
| Followers.AppendRequestOk | internal/raft/raft.go:996-1059 | so is the append handler, acknowledgement of the whole log and min(leaderCommit, lastLogIndex) included |
| FollowerLog.PlanMeaning | internal/raft/raft.go:1422-1443 | matching a request against a log finds every entry present, or stores exactly the Leader's log up to the request's end without touching a committed entry, or refuses only below the Snapshot |
| FollowerLog.HintSound | internal/raft/raft.go:1380-1390 | a conflict hint never points into the part of the log both sides share |
| FollowerLog.HintKeepsAbove | internal/raft/raft.go:1392-1406 | the next index a Leader takes from a sound hint stays above the shared part |
| Leaders.AppendReplyOk | internal/raft/raft.go:1061-1094 | the append reply handler, outside the excluded delivery, is a transition of the protocol |
| Leaders.ConfirmReadOk | internal/raft/raft.go:924-933 | accepting a read keeps the coupling and records what it must cover |
| Snapshots.KeepsIffShares | internal/raft/raft.go:1116-1126 | the test for keeping the log behind a received Snapshot succeeds exactly when the log shares the Leader's history up to it |
| Snapshots.SnapshotRequestOk | internal/raft/raft.go:1106-1169 | receiving a Snapshot, installed or not, keeps the coupling |
| Snapshots.SnapshotReplyOk | internal/raft/raft.go:1178-1198 | a finished transfer advances the match index truthfully |
| Snapshots.CompactedOk | internal/raft/raft.go:1328-1335 | compacting at an applied index keeps the coupling |
| Machines.StepApplies | internal/raft/raft.go:1489-1504 | the entries a step applies are exactly the log from the old to the new applied index, in order |
| Machines.ConsumeReplays | internal/node/session.go:63-122 | consuming a step's actions without a restore is replaying the entries it applied |
| Machines.PlanAboveCommit | internal/raft/raft.go:1422-1450 | a Follower never replaces an entry it has committed |
| Durability.WritesCover | internal/node/raft_runtime.go:82-169 | for every Node and input, replaying a step's durable writes on the old durable state gives the new one |
| Visible.DurableBeforeVisible | internal/node/raft_runtime.go:82-169 | every granted vote, successful acknowledgement and applied entry a step emits is already covered by what is on disk |
| Visible.StepPromises | internal/raft/raft.go:1254-1260 | whatever a step promises about a vote or a log end is what its Node then holds, for any Node and input |
| Draining.CompletionsEnd | internal/node/raft_runtime.go:92-160 | each persistence completion strictly lowers the measure (hard state, then log or Snapshot, then commit) or leaves everything as it was |
| Refinement.StepRefined | internal/raft/raft.go:655-705 | for every idle core and every input but a finished compaction, draining the handler's actions leaves the core idle and realises exactly the atomic step: same Node, same writes, same emitted effects |
| Refinement.CompactedRefined | internal/raft/raft.go:1328-1335 | the same for a finished compaction, which persists nothing through the core |
| Runtime.RaftRuntime.constructor | internal/node/raft_runtime.go:14-22 | a runtime couples an idle core with a WAL that, from the core's Snapshot on, holds exactly what the core takes for durable; the core may start at a later Snapshot |
| Runtime.RaftRuntime.Step | internal/node/raft_runtime.go:82-169 | for every event, a step that succeeds takes the core through the whole atomic step, leaves it idle, leaves the WAL agreeing with it from its Snapshot on and with exactly the step's writes more on record, and emits exactly the step's effects; it succeeds whenever the WAL accepts the writes; a failed step emits nothing |
| Runtime.RaftRuntime.Compact | internal/node/snapshot.go:38-49 | compacting the WAL at the last applied index and then telling the core leaves both at that Snapshot with the same durable state, with one checkpoint more on record |
| Runtime.ReopenIff | internal/node/raft_runtime.go:24-52 | opening the WAL of a runtime again returns a state that agrees with the core if and only if the newest checkpoint on record judges every earlier truncation correctly |
| Agreement.StepAgrees | internal/node/raft_runtime.go:57-77 | a WAL that agrees with the core from the core's Snapshot on still does after any step's writes, so a Node that restarted from a later Snapshot file goes on like any other |
| Agreement.CompactionAgrees | internal/node/snapshot.go:38-49 | a compaction brings WAL and core back to one Snapshot |
| Runtime.DrainAll | internal/node/raft_runtime.go:92-169 | the drain loop terminates with the drained core, the WAL advanced by exactly the drained writes and nothing emitted on failure |
| Runtime.Persist | internal/node/raft_runtime.go:88-161 | one persistence action reaches the WAL as its writes and their records, or is refused |
| Runtime.StepSafe | internal/raft/raft.go:1135-1169 | every Snapshot completion a step leads to finds the log positions it was requested for |
| RaftNode.RaftCore.Recovered | internal/raft/raft.go:583-630 | the recovered core is a valid idle Follower that has applied its Snapshot |
| RaftNode.RaftCore.Step | internal/raft/raft.go:655-705 | the mutable core does to its fields and actions what the value-level handler says, for every event; only append requests whose new entries do not continue the log leave it with a wrong end of its log, and then nothing else differs |
| RaftNode.RaftCore.Completed | internal/raft/raft.go:663-670 | so does every persistence completion |
| RaftNode.RaftCore.StartPreVote | internal/raft/raft.go:707-725 | an election timeout, single-Node Clusters included |
| RaftNode.RaftCore.HandlePreVoteRequest | internal/raft/raft.go:727-730 | a pre-vote request |
| RaftNode.RaftCore.HandlePreVoteReply | internal/raft/raft.go:732-745 | a pre-vote response |
| RaftNode.RaftCore.StartElection | internal/raft/raft.go:747-761 | a new election |
| RaftNode.RaftCore.HardStatePersisted | internal/raft/raft.go:763-775 | hard state made durable releases what waited for it |
| RaftNode.RaftCore.LogEntriesPersisted | internal/raft/raft.go:777-804 | log entries made durable, on a Leader and on a Follower |
| RaftNode.RaftCore.HandleVoteRequest | internal/raft/raft.go:806-824 | a vote request |
| RaftNode.RaftCore.HandleVoteReply | internal/raft/raft.go:826-857 | a vote response |
| RaftNode.RaftCore.TakeOffice | internal/raft/raft.go:837-857 | the state of a new Leader |
| RaftNode.RaftCore.HandleProposal | internal/raft/raft.go:859-922 | the three proposals |
| RaftNode.RaftCore.ConfirmRead | internal/raft/raft.go:924-933 | a read to confirm |
| RaftNode.RaftCore.HeartbeatRound | internal/raft/raft.go:935-944 | a heartbeat round |
| RaftNode.RaftCore.SendAppendEntries | internal/raft/raft.go:946-956 | one request to each peer in order |
| RaftNode.RaftCore.SendAppendEntriesTo | internal/raft/raft.go:958-994 | the request one peer gets, from the durable part of the log only |
| RaftNode.RaftCore.HandleAppendEntries | internal/raft/raft.go:996-1059 | an append request; the core stays valid if and only if the entries it stores continue its log |
| RaftNode.RaftCore.HandleAppendReply | internal/raft/raft.go:1061-1094 | an append response |
| RaftNode.RaftCore.HandleAppendFailed | internal/raft/raft.go:1096-1104 | a failed request |
| RaftNode.RaftCore.HandleInstallSnapshot | internal/raft/raft.go:1106-1133 | a Snapshot chunk |
| RaftNode.RaftCore.SnapshotPersisted | internal/raft/raft.go:1135-1169 | an installed Snapshot |
| RaftNode.RaftCore.HandleSnapshotReply | internal/raft/raft.go:1178-1198 | a Snapshot response |
| RaftNode.RaftCore.AcknowledgeRead | internal/raft/raft.go:1200-1212 | a read acknowledged by a peer |
| RaftNode.RaftCore.CheckQuorum | internal/raft/raft.go:1214-1225 | the quorum check |
| RaftNode.RaftCore.CommitIndexPersisted | internal/raft/raft.go:1315-1326 | a durable commit index |
| RaftNode.RaftCore.CompactLog | internal/raft/raft.go:1328-1335 | dropping the log behind a Snapshot |
| RaftNode.RaftCore.AppendEntries | internal/raft/raft.go:1337-1341 | appending to the log; its cached end is right if and only if the entries continue the log |
| RaftNode.RaftCore.EntriesBatch | internal/raft/raft.go:1357-1378 | the loop returns the longest batch within the byte bound, at least one entry |
| RaftNode.RaftCore.ConflictHint | internal/raft/raft.go:1380-1390 | the loop returns the first retained index of the conflicting Term |
| RaftNode.RaftCore.NextIndexFromConflict | internal/raft/raft.go:1392-1406 | the loop returns the index after the Leader's last entry of the hinted Term, or the hinted index |
| RaftNode.RaftCore.PendingReadFor | internal/raft/raft.go:1408-1420 | the loop returns the lowest read the peer has not acknowledged |
| RaftNode.RaftCore.EntriesToAppend | internal/raft/raft.go:1422-1443 | the loop returns the plan the specification gives |
| RaftNode.RaftCore.TruncateLog | internal/raft/raft.go:1445-1450 | cutting the log and its cached end |
| RaftNode.RaftCore.AdvanceLeaderCommit | internal/raft/raft.go:1461-1478 | the loop finds the greatest index of the current Term a majority holds, or reports none |
| RaftNode.RaftCore.AdvanceFollowerCommit | internal/raft/raft.go:1480-1487 | the Follower's commit is the lesser of the Leader's and its own log end |
| RaftNode.RaftCore.ApplyThrough | internal/raft/raft.go:1489-1504 | the loop emits the committed entries in order and the read-readiness of a new Leader |
| RaftNode.RaftCore.CompleteReads | internal/raft/raft.go:1506-1522 | the loop confirms, lowest first, exactly the reads that are confirmed and covered by what is applied |
| RaftNode.CountReplicas | internal/raft/raft.go:1465-1471 | counts exactly the peers whose match index reaches an index |
| RaftNode.FittingPrefix | internal/raft/raft.go:1357-1378 | the length of the longest prefix that fits one request |
| RaftNode.InitialIndexes | internal/raft/raft.go:846-850 | every peer starts at one past the log end |
| WalHistory.RecoverPlain | internal/wal/wal.go:616-649 | for every accepted history without a checkpoint, replaying the records gives exactly the live hard state, log and commit |
| WalHistory.RecoverIff | internal/wal/wal.go:725-885 | for every accepted history with a checkpoint, replay gives exactly the live state if every truncation before the newest checkpoint starts above that checkpoint's commit index, or starts at or below its Snapshot index when the log ended there or lower; otherwise it fails or gives the live state with entries in a log that should be empty |
| WalHistory.RecoverCases | internal/wal/wal.go:827-885 | every accepted history is replayed exactly, or fails, or brings removed entries back; it fails exactly when the first misjudged truncation starts above the Snapshot of the newest checkpoint or entries above that Snapshot were written after it |
| WalHistory.BackwardsFails | internal/wal/wal.go:867-869 | whatever else was recorded, if the newest checkpoint is below an earlier one still on record, recovery fails |
| WalHistory.RecoverExactIff | internal/wal/wal.go:616-649 | every accepted history, with or without checkpoints, recovers exactly if and only if its newest checkpoint judges every earlier truncation correctly |
| WalCuts.CutCheckpoint | internal/wal/wal.go:397-461 | a cut between the two records of a checkpoint recovers like the whole checkpoint |
| WalCuts.AnyCutRecovers | internal/wal/wal.go:651-723 | wherever the records of an accepted history are cut, what is left recovers like the records of some prefix of its writes |
| WalHistory.ReplacedEntryReturns | internal/wal/wal.go:827-845 | a concrete accepted history after which recovery does not return the live state |
| WalHistory.LiveWellFormed | internal/wal/wal.go:89-183 | every accepted history leaves a contiguous log with base, commit and end in order |
| WalCompaction.DeletionInvisible | internal/wal/wal.go:434-451 | deleting any subset of the segments the newest checkpoint covers leaves the recovery outcome, value or failure, unchanged |
| WalCompaction.StartAtMark | internal/wal/wal.go:887-917 | recovery starts from the newest checkpoint whatever was deleted before it |
| WalCompaction.CoveredSegment | internal/wal/wal.go:917-948 | a segment counted as covered contains nothing the newest checkpoint does not supersede |
| WalFrames.TornTail | internal/wal/wal.go:651-723 | for any records and any cut of the final segment after its header, a tolerant scan returns exactly the records wholly before the cut and ends the file after just their frames |
| WalFrames.ReadSegment | internal/wal/wal.go:651-714 | the loop of readSegment computes that scan |
| WalFrames.ScanSegmentFrames | internal/wal/wal.go:950-996 | the loop of scanSegmentFrames accepts the same segments and visits the same records |
| WalFrames.EntryRoundTrip | internal/wal/wal.go:800-826 | decoding inverts encoding for every entry whose key and value are within the limits |
| WalFrames.NumberRoundTrip | internal/wal/wal.go:104-117 | big-endian numbers read back for every width they fit |
| WalStore.Wal.constructor | internal/wal/wal.go:251-318 | a new WAL is blank |
| WalStore.Wal.Reopened | internal/wal/wal.go:296-316 | a reopened WAL has the positions and exact byte counts of what recovery returned, and its records are those found |
| WalStore.Wal.SaveHardState | internal/wal/wal.go:320-339 | appends one hard-state write |
| WalStore.Wal.SaveLogEntries | internal/wal/wal.go:89-124 | accepts exactly a non-empty contiguous continuation and appends it with its records, or changes nothing |
| WalStore.Wal.TruncateLog | internal/wal/wal.go:129-155 | accepts exactly an uncommitted index within the log and cuts there, or changes nothing |
| WalStore.Wal.SaveCommitIndex | internal/wal/wal.go:158-183 | accepts exactly a non-decreasing index within the log |
| WalStore.Wal.RetainedLogBytes | internal/wal/wal.go:341-349 | the count grows by exactly the sizes kept for the newly covered indices, and equals the direct sum of frame sizes above the Snapshot as long as every query since the last checkpoint was at a committed index, through appends, truncations, checkpoints and reopening |
| WalStore.Wal.Compact | internal/wal/wal.go:354-365 | accepts exactly a positive committed index; from the previous Snapshot on it is a checkpoint that keeps the log, and below it the positions go back and the records can no longer be recovered |
| WalStore.Wal.InstallSnapshot | internal/wal/wal.go:369-395 | a checkpoint at a received Snapshot, with the suffix kept or dropped |
| WalStore.Wal.InstallCheckpoint | internal/wal/wal.go:397-461 | the records, positions and byte counts a checkpoint leaves, above and below the previous Snapshot |
| WalStore.Wal.ForgetFrom | internal/wal/wal.go:149-152 | drops exactly the byte counts from an index on |
| SessionStore.SessionMachine.constructor | internal/node/session.go:59-61 | a new machine is empty |
| SessionStore.SessionMachine.ApplyEntry | internal/node/session.go:63-122 | applying an entry in place gives the state and the reply of the specification |
| SessionStore.SessionMachine.EvaluateMutation | internal/node/session.go:126-153 | accepts exactly the next sequence of an open session and otherwise says why |
| SessionStore.SessionMachine.Snapshot | internal/node/snapshot.go:72-96 | saves all values and lists every session once, in byte order |
| SessionStore.SessionMachine.RestoreFrom | internal/node/snapshot.go:98-129 | replaces the state by the saved one, stopping where the specification stops |
| AtMostOnce.EffectsInOrder | internal/node/session.go:126-153 | for every log, each session's effective mutations are exactly the sequences 1 to lastSequence, in order |
| AtMostOnce.IneffectiveInvisible | internal/node/session.go:63-122 | deleting every entry without effect leaves the final state unchanged |
| AtMostOnce.ReadsLastWrite | internal/node/session.go:155-158 | after any log a lookup finds what the key's last effective mutation left: its value after a Set, nothing after a Delete, and what was there before if there was none |
| AtMostOnce.RetryAnswered | internal/node/session.go:137-141 | however much was applied in between, a retry of the session's latest mutation changes nothing and gets the original answer |
| AtMostOnce.RepliesHonest | internal/node/session.go:63-122 | what is told a failure has no effect, and what takes effect is told success |
| AtMostOnce.ReplayCounted | internal/node/session.go:66-92 | for every log the active counter is the number of open sessions and within the limit |
| AtMostOnce.AgreesWithModel | internal/simulation/randomized.go:461-488 | as long as the limit turns nobody away, every log leaves values and sessions where the simulator's reference model leaves them |
| SessionStore.RestoreIff | internal/node/snapshot.go:98-129 | a Snapshot of any machine restores under any limit if and only if the limit has room for its open sessions, and then nothing is lost |
| SessionStore.SnapshotThenSuffix | internal/node/snapshot.go:72-129 | restoring a Snapshot of an applied prefix and applying the rest equals applying everything |
| SessionStore.OneListing | internal/node/snapshot.go:92-95 | the listing in a Snapshot is canonical: map order does not show |
| SessionStore.Collect | internal/node/snapshot.go:83-95 | the listing holds every session once, in byte order |
| Recovery.RequireCheckpoint | internal/snapshot/snapshot.go:198-224 | succeeds exactly when the checkpoint's Snapshot is there and every file of that name is intact |
| Recovery.LoadNewest | internal/snapshot/snapshot.go:162-196 | fails exactly in the listed cases, and otherwise returns the greatest compatible Snapshot whatever order the files come in |
| Recovery.CheckpointIsCompatible | internal/snapshot/snapshot.go:189-196 | for a recovered WAL an intact checkpoint Snapshot is compatible, so nothing older than it is ever chosen |
| Recovery.Suffix | internal/node/raft_runtime.go:57-66 | the loop drops exactly the entries the Snapshot covers |
| Recovery.Open | internal/node/raft_runtime.go:24-78 | opening fails exactly when the choice does, and otherwise builds a valid idle Follower whose log end, Term, vote and commit are the durable ones and which agrees with the WAL |
| Recovery.Reopen | internal/node/raft_runtime.go:24-78 | opening a Node again gives a runtime that goes on with the recovered WAL state and the chosen Snapshot, or fails exactly when the choice does |
| Recovery.AnyCommittedSnapshotWillDo | internal/node/raft_runtime.go:57-77 | whichever committed Snapshot recovery starts from, replaying the committed suffix leads to the same state machine |

## Left out

- Runtime.RaftRuntime.Step: stated for append requests whose new entries continue the log and for Snapshots that keep what is committed, which is all a Leader sends (`Runs.WritesAlwaysAccepted`); otherwise the WAL refuses the write and the Node stops, with the core as `RaftNode.RaftCore.Step` leaves it.
- AtMostOnce.AgreesWithModel: stated one way only; after the limit turned a session away, a later opening of the same session can bring both machines together again.
- Log matching, completeness, acknowledgements and reads in runs that contain an excluded event.
- Liveness that depends on timing: that an election eventually succeeds or that a stale Follower catches up by Snapshot.
- gRPC services, peer transport, wire encoding and generated code: network plumbing, represented by the set of packets.
- `internal/node/runtime_loop.go`: goroutines, channels, contexts and timers, and the steps a Node takes between capturing a Snapshot and compacting with it.
- File system calls, fsync, directory locks and file names; a failed write is not modelled beyond being refused before it happens.
- The identity records of a WAL segment, and record types 4 and 5, which nothing writes.
- Encoding of Snapshots (JSON, checksum, chunk offsets) and the checks of validateState on identities; a Snapshot file is what reading it yields.
- The leaderMutations bookkeeping of raftRuntime.step, which only feeds an observer of mutations.
- Client, command line, configuration, metrics and benchmarks.
- The random schedule of the simulator: the transitions of `Cluster` allow every schedule.
