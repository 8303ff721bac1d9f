/** Inputs and effects of the consensus core. A message carries no sender: the
    sender travels beside it, as the peer transport sets it. */
module Messages {
  import opened Types

  datatype Role = Follower | PreCandidate | Candidate | Leader

  datatype Message =
    | PreVoteRequest(term: nat, lastIndex: nat, lastTerm: nat)
    | PreVoteReply(term: nat, currentTerm: nat, granted: bool)
    | VoteRequest(term: nat, lastIndex: nat, lastTerm: nat)
    | VoteReply(term: nat, granted: bool)
    | AppendRequest(term: nat, requestId: nat, prevIndex: nat, prevTerm: nat,
                    entries: seq<Entry>, leaderCommit: nat, readId: nat)
    | AppendReply(term: nat, requestId: nat, success: bool, matchIndex: nat,
                  conflictTerm: nat, conflictIndex: nat, readId: nat)
    | SnapshotRequest(term: nat, requestId: nat, index: nat, snapTerm: nat, offset: nat)
    | SnapshotReply(term: nat, requestId: nat, index: nat, success: bool, nextOffset: nat, done: bool)

  /** What the runtime staged from one Snapshot chunk before handing it on:
      done and success together mean a complete, validated image. */
  datatype Staged = Staged(done: bool, success: bool, nextOffset: nat)

  datatype Event =
    | ElectionTimeout
    | HeartbeatTimeout
    | CheckQuorumTimeout
    | RecoverCommitted
    | SnapshotCompacted(index: nat, snapTerm: nat)
    | ProposeSession(proposalId: nat, kind: EntryKind, session: SessionId)
    | ProposeSet(proposalId: nat, session: SessionId, sequence: nat, key: Bytes, value: Bytes)
    | ProposeDelete(proposalId: nat, session: SessionId, sequence: nat, key: Bytes)
    | ConfirmRead(readId: nat)
    | AppendFailed(to: NodeId, requestId: nat)
    | Receive(from: NodeId, msg: Message)
    | ReceiveSnapshot(from: NodeId, msg: Message, staged: Staged)

  datatype Action =
    | Send(to: NodeId, msg: Message)
    | RestoreSnapshot(index: nat, snapTerm: nat)
    | ResetElectionTimer
    | ResetHeartbeatTimer
    | ResetCheckQuorumTimer
    | BecameLeader(term: nat)
    | LostLeadership(term: nat)
    | BecameReadReady(term: nat)
    | ApplyEntry(entry: Entry)
    | ProposalAccepted(proposalId: nat, index: nat)
    | ProposalRejected(proposalId: nat, leader: NodeId)
    | ReadConfirmed(readId: nat, commitIndex: nat)
    | ReadRejected(readId: nat, leader: NodeId)

  /** One durable effect. A Checkpoint installs a Snapshot position and, when
      keep is false, discards the log after it. */
  datatype Write =
    | SaveHardState(term: nat, votedFor: NodeId)
    | Truncate(from: nat)
    | Append(entry: Entry)
    | SaveCommit(index: nat)
    | Checkpoint(index: nat, snapTerm: nat, keep: bool)

  /** What survives a crash: the log holds the entries after the Snapshot. */
  datatype Durable = Durable(
    term: nat, votedFor: NodeId, base: nat, baseTerm: nat, log: seq<Entry>, commit: nat)

  function ApplyWrite(d: Durable, w: Write): Durable {
    match w
    case SaveHardState(term, votedFor) => d.(term := term, votedFor := votedFor)
    case Truncate(from) =>
      if d.base < from <= d.base + |d.log| then d.(log := d.log[..from - d.base - 1]) else d
    case Append(entry) => d.(log := d.log + [entry])
    case SaveCommit(index) => d.(commit := index)
    case Checkpoint(index, snapTerm, keep) =>
      var suffix := if keep && d.base <= index <= d.base + |d.log| then d.log[index - d.base..] else [];
      d.(base := index, baseTerm := snapTerm, log := suffix, commit := Max(d.commit, index))
  }

  function ApplyWrites(d: Durable, ws: seq<Write>): Durable
    decreases |ws|
  {
    if ws == [] then d else ApplyWrite(ApplyWrites(d, ws[..|ws| - 1]), ws[|ws| - 1])
  }
}
