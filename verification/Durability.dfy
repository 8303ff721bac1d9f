/** What a step writes is exactly what a restart needs: replaying its writes on
    the durable state before the step gives the durable state after it. */
module Durability {
  import opened Types
  import opened Messages
  import opened Node

  lemma {:induction false} WritesConcat(d: Durable, a: seq<Write>, b: seq<Write>)
    ensures ApplyWrites(d, a + b) == ApplyWrites(ApplyWrites(d, a), b)
    decreases |b|
  {
    if b == [] {
      assert a + b == a;
    } else {
      assert (a + b)[..|a + b| - 1] == a + b[..|b| - 1];
      WritesConcat(d, a, b[..|b| - 1]);
    }
  }

  lemma OneWrite(d: Durable, w: Write)
    ensures ApplyWrites(d, [w]) == ApplyWrite(d, w)
  {
    assert [w][..0] == [];
    assert ApplyWrites(d, [w][..0]) == d;
  }

  function Appends(tail: seq<Entry>): seq<Write> {
    seq(|tail|, i requires 0 <= i < |tail| => Append(tail[i]))
  }

  lemma {:induction false} AppendsAdd(d: Durable, tail: seq<Entry>)
    ensures ApplyWrites(d, Appends(tail)) == d.(log := d.log + tail)
    decreases |tail|
  {
    if tail == [] {
      assert d.log + tail == d.log;
    } else {
      var init := tail[..|tail| - 1];
      assert Appends(tail)[..|tail| - 1] == Appends(init);
      AppendsAdd(d, init);
      assert d.log + init + [tail[|tail| - 1]] == d.log + tail;
    }
  }

  /** Truncating and appending one by one is replacing the suffix at once. */
  lemma StoreWritten(n: Node, from: nat, tail: seq<Entry>)
    ensures ApplyWrites(DurableOf(n), StoreWrites(from, tail)) == DurableOf(StoreEntries(n, from, tail))
  {
    hide ApplyWrites;
    var d := DurableOf(n);
    assert Appends(tail) == seq(|tail|, i requires 0 <= i < |tail| => Append(tail[i]));
    if from != 0 {
      WritesConcat(d, [Truncate(from)], Appends(tail));
      OneWrite(d, Truncate(from));
      AppendsAdd(ApplyWrite(d, Truncate(from)), tail);
      assert StoreWrites(from, tail) == [Truncate(from)] + Appends(tail);
    } else {
      assert StoreWrites(from, tail) == Appends(tail);
      AppendsAdd(d, tail);
    }
  }

  // ------------------------------------------ helpers that leave the disk alone

  lemma SendToVolatile(n: Node, peer: NodeId, readId: nat)
    ensures DurableOf(SendTo(n, peer, readId).node) == DurableOf(n)
  {
  }

  lemma {:induction false} SendAllVolatile(n: Node, peers: seq<NodeId>, readId: nat)
    ensures DurableOf(SendAll(n, peers, readId).node) == DurableOf(n)
    decreases |peers|
  {
    if peers != [] {
      var carried := if readId == 0 then PendingReadFor(n, peers[0]) else readId;
      SendToVolatile(n, peers[0], carried);
      SendAllVolatile(SendTo(n, peers[0], carried).node, peers[1..], readId);
    }
  }

  lemma {:induction false} CompleteReadsVolatile(n: Node)
    ensures DurableOf(CompleteReads(n).node) == DurableOf(n)
    decreases |ReadyReads(n)|
  {
    var ready := ReadyReads(n);
    if ready != {} {
      var n' := n.(waiting := n.waiting - {Least(ready)});
      assert ReadyReads(n') == ready - {Least(ready)};
      CompleteReadsVolatile(n');
    }
  }

  lemma AckReadVolatile(n: Node, from: NodeId, readId: nat)
    ensures DurableOf(AckRead(n, from, readId).node) == DurableOf(n)
  {
    if readId != 0 && readId in n.waiting && !n.waiting[readId].confirmed {
      var acks := n.waiting[readId].acks + {from};
      CompleteReadsVolatile(n.(waiting := n.waiting[readId := PendingRead(acks, n.commit, true)]));
    }
  }

  lemma {:induction false} ApplyThroughVolatile(n: Node, index: nat)
    ensures DurableOf(ApplyThrough(n, index).node) == DurableOf(n)
    decreases index - n.lastApplied
  {
    if index <= n.lastApplied || !(n.base <= n.lastApplied < LastIndex(n)) {
      CompleteReadsVolatile(n);
    } else {
      ApplyThroughVolatile(ApplyOne(n).node, index);
    }
  }

  // ------------------------------------------------------------- whole handlers

  ghost predicate Covers(n: Node, r: StepResult) {
    ApplyWrites(DurableOf(n), r.writes) == DurableOf(r.node)
  }

  lemma ElectionCovers(n: Node)
    ensures Covers(n, StartElection(n)) && Covers(n, OnElectionTimeout(n))
  {
    OneWrite(DurableOf(n), SaveHardState(n.term + 1, n.id));
  }

  lemma StepDownCovers(n: Node, term: nat)
    ensures Covers(n, StepDown(n, term))
  {
    var n' := BecomeFollower(n, term, "");
    OneWrite(DurableOf(n), SaveHardState(n'.term, n'.votedFor));
  }

  lemma VoteRequestCovers(n: Node, from: NodeId, m: Message)
    requires m.VoteRequest?
    ensures Covers(n, OnVoteRequest(n, from, m))
  {
    var r := OnVoteRequest(n, from, m);
    OneWrite(DurableOf(n), SaveHardState(r.node.term, r.node.votedFor));
  }

  lemma VoteReplyCovers(n: Node, from: NodeId, m: Message)
    requires m.VoteReply?
    ensures Covers(n, OnVoteReply(n, from, m))
  {
    hide SendAll;
    StepDownCovers(n, m.term);
    var noop := FirstEntry(n);
    OneWrite(DurableOf(n), Append(noop));
    var n1 := n.(votes := n.votes + {from});
    var n2 := n1.(role := Leader, leaderId := n.id, activePeers := {}, matchIndex := map[],
                  inFlight := map[], snapInFlight := map[], readReady := false,
                  log := n.log + [noop], nextIndex := InitialNext(n.peers, LastIndex(n) + 2));
    SendAllVolatile(n2, n2.peers, 0);
  }

  lemma ProposeCovers(n: Node, proposalId: nat, e: Entry)
    ensures Covers(n, Propose(n, proposalId, e))
  {
    hide SendAll;
    OneWrite(DurableOf(n), Append(e));
    SendAllVolatile(n.(log := n.log + [e]), n.peers, 0);
  }

  lemma FinishCovers(n0: Node, n: Node, writes: seq<Write>, from: NodeId, m: Message)
    requires m.AppendRequest? && ApplyWrites(DurableOf(n0), writes) == DurableOf(n)
    ensures Covers(n0, FinishAppend(n, writes, from, m))
  {
    hide ApplyThrough;
    var target := Min(m.leaderCommit, LastIndex(n));
    var n1 := if target > n.commit then n.(commit := target) else n;
    ApplyThroughVolatile(n1, n1.commit);
    WritesConcat(DurableOf(n0), writes, [SaveCommit(target)]);
    OneWrite(DurableOf(n), SaveCommit(target));
    assert writes + [] == writes;
  }

  lemma RecogniseCovers(n: Node, term: nat, from: NodeId)
    requires n.term <= term
    ensures ApplyWrites(DurableOf(n), HardStateIf(term > n.term, Recognise(n, term, from))) == DurableOf(Recognise(n, term, from))
  {
    var n1 := Recognise(n, term, from);
    OneWrite(DurableOf(n), SaveHardState(n1.term, n1.votedFor));
  }

  lemma AppendRequestCovers(n: Node, from: NodeId, m: Message)
    requires m.AppendRequest?
    ensures Covers(n, OnAppendRequest(n, from, m))
  {
    hide FinishAppend, Recognise, HardStateIf, StoreWrites, StoreEntries, PlanAppend, Matches, ConflictHint;
    if n.term <= m.term {
      var n1 := Recognise(n, m.term, from);
      var hs := HardStateIf(m.term > n.term, n1);
      RecogniseCovers(n, m.term, from);
      match PlanAppend(n1, m.prevIndex + 1, m.entries)
      case Refuse =>
      case Nothing => FinishCovers(n, n1, hs, from, m);
      case Store(truncateFrom, tail) =>
        WritesConcat(DurableOf(n), hs, StoreWrites(truncateFrom, tail));
        StoreWritten(n1, truncateFrom, tail);
        FinishCovers(n, StoreEntries(n1, truncateFrom, tail), hs + StoreWrites(truncateFrom, tail), from, m);
    }
  }

  lemma CurrentReplyCovers(n: Node, from: NodeId, m: Message, leaderCommit: nat)
    requires m.AppendReply?
    ensures Covers(n, CurrentReply(n, from, m, leaderCommit))
  {
    hide SendAll, AckRead, ApplyThrough, SendTo, PendingReadFor, LeaderCommit, NoteReply;
    var n1 := NoteReply(n, from, m);
    assert DurableOf(n1) == DurableOf(n) by { NoteReplyVolatile(n, from, m); }
    var index := LeaderCommit(n1, LastIndex(n1));
    var n2 := n1.(commit := index);
    OneWrite(DurableOf(n), SaveCommit(index));
    SendAllVolatile(n2, n1.peers, 0);
    var sent := SendAll(n2, n1.peers, 0);
    AckReadVolatile(sent.node, from, m.readId);
    ApplyThroughVolatile(AckRead(sent.node, from, m.readId).node, index);
    SendToVolatile(n1, from, PendingReadFor(n1, from));
    AckReadVolatile(SendTo(n1, from, PendingReadFor(n1, from)).node, from, m.readId);
    AckReadVolatile(n1, from, m.readId);
  }

  lemma NoteReplyVolatile(n: Node, from: NodeId, m: Message)
    requires m.AppendReply?
    ensures DurableOf(NoteReply(n, from, m)) == DurableOf(n)
  {
  }

  lemma AppendReplyCovers(n: Node, from: NodeId, m: Message)
    requires m.AppendReply?
    ensures Covers(n, OnAppendReply(n, from, m))
  {
    hide CurrentReply;
    StepDownCovers(n, m.term);
    CurrentReplyCovers(n, from, m, Get(n.inFlight, from, InFlight(0, 0)).leaderCommit);
  }

  lemma InstallCovers(n: Node, index: nat, term: nat, keep: bool)
    ensures ApplyWrite(DurableOf(n), Checkpoint(index, term, keep)) == DurableOf(Install(n, index, term, keep))
  {
  }

  lemma SnapshotRequestCovers(n: Node, from: NodeId, m: Message, st: Staged)
    requires m.SnapshotRequest?
    ensures Covers(n, OnSnapshotRequest(n, from, m, st))
  {
    hide Recognise, HardStateIf, TermAt, Install;
    if n.term <= m.term {
      var n1 := Recognise(n, m.term, from);
      var hs := HardStateIf(m.term > n.term, n1);
      RecogniseCovers(n, m.term, from);
      InstallCovers(n1, m.index, m.snapTerm, m.index <= LastIndex(n1) && TermAt(n1, m.index) == m.snapTerm);
      var w := Checkpoint(m.index, m.snapTerm, m.index <= LastIndex(n1) && TermAt(n1, m.index) == m.snapTerm);
      WritesConcat(DurableOf(n), hs, [w]);
      OneWrite(DurableOf(n1), w);
    }
  }

  lemma SnapshotReplyCovers(n: Node, from: NodeId, m: Message)
    requires m.SnapshotReply?
    ensures Covers(n, OnSnapshotReply(n, from, m))
  {
    hide SendTo, PendingReadFor;
    StepDownCovers(n, m.term);
    var n1 := n.(snapInFlight := n.snapInFlight - {from},
                 matchIndex := n.matchIndex[from := Max(Get(n.matchIndex, from, 0), m.index)],
                 nextIndex := n.nextIndex[from := m.index + 1]);
    SendToVolatile(n1, from, PendingReadFor(n1, from));
  }

  lemma CompactedCovers(n: Node, index: nat, term: nat)
    requires n.lastApplied <= n.commit
    ensures Covers(n, OnCompacted(n, index, term))
  {
    OneWrite(DurableOf(n), Checkpoint(index, term, true));
  }

  lemma ReceiveCovers(n: Node, from: NodeId, m: Message)
    ensures Covers(n, OnReceive(n, from, m))
  {
    hide Covers, OnVoteRequest, OnVoteReply, OnAppendRequest, OnAppendReply, OnSnapshotReply, StartElection;
    match m
    case PreVoteRequest(_, _, _) => PreVoteCovers(n, from, m);
    case PreVoteReply(_, _, _) => PreVoteCovers(n, from, m);
    case VoteRequest(_, _, _) => VoteRequestCovers(n, from, m);
    case VoteReply(_, _) => VoteReplyCovers(n, from, m);
    case AppendRequest(_, _, _, _, _, _, _) => AppendRequestCovers(n, from, m);
    case AppendReply(_, _, _, _, _, _, _) => AppendReplyCovers(n, from, m);
    case SnapshotReply(_, _, _, _, _, _) => SnapshotReplyCovers(n, from, m);
    case SnapshotRequest(_, _, _, _, _) => NothingCovers(n);
  }

  lemma NothingCovers(n: Node)
    ensures Covers(n, Unchanged(n))
  {
  }

  lemma PreVoteCovers(n: Node, from: NodeId, m: Message)
    requires m.PreVoteRequest? || m.PreVoteReply?
    ensures m.PreVoteRequest? ==> Covers(n, OnPreVoteRequest(n, from, m))
    ensures m.PreVoteReply? ==> Covers(n, OnPreVoteReply(n, from, m))
  {
    if m.PreVoteReply? {
      StepDownCovers(n, m.currentTerm);
      ElectionCovers(n.(preVotes := n.preVotes + {from}));
    }
  }

  lemma ProposalCovers(n: Node, ev: Event)
    requires ev.ProposeSession? || ev.ProposeSet? || ev.ProposeDelete?
    ensures Covers(n, OnPropose(n, ev))
  {
    hide Covers, Propose;
    NothingCovers(n);
    ShownCovers(n, [ProposalRejected(ev.proposalId, n.leaderId)]);
    match ev
    case ProposeSession(id, kind, session) =>
      ProposeCovers(n, id, Entry(LastIndex(n) + 1, n.term, kind, session, 0, [], []));
    case ProposeSet(id, session, sequence, key, value) =>
      ProposeCovers(n, id, Entry(LastIndex(n) + 1, n.term, SetKey, session, sequence, key, value));
    case ProposeDelete(id, session, sequence, key) =>
      ProposeCovers(n, id, Entry(LastIndex(n) + 1, n.term, DeleteKey, session, sequence, key, []));
  }

  lemma ShownCovers(n: Node, actions: seq<Action>)
    ensures Covers(n, StepResult(n, [], actions))
  {
  }

  lemma TimerCovers(n: Node)
    ensures Covers(n, OnHeartbeat(n)) && Covers(n, OnCheckQuorum(n))
  {
    hide SendAll;
    SendAllVolatile(n.(inFlight := map[]), n.peers, 0);
  }

  lemma ConfirmReadCovers(n: Node, id: nat)
    ensures Covers(n, OnConfirmRead(n, id))
  {
    hide SendAll;
    SendAllVolatile(n.(waiting := n.waiting[id := PendingRead({n.id}, 0, false)]), n.peers, id);
  }

  lemma AppendFailedCovers(n: Node, to: NodeId, requestId: nat)
    ensures Covers(n, OnAppendFailed(n, to, requestId))
  {
  }

  /** Every step of every Node leaves on disk what its new state needs. */
  lemma WritesCover(n: Node, ev: Event)
    requires ev.SnapshotCompacted? ==> n.lastApplied <= n.commit
    ensures Covers(n, Step(n, ev))
  {
    hide OnElectionTimeout, OnHeartbeat, OnCheckQuorum, OnReceive, OnSnapshotRequest, ApplyThrough, OnPropose, OnCompacted, OnConfirmRead, OnAppendFailed;
    match ev
    case ElectionTimeout => ElectionCovers(n);
    case HeartbeatTimeout => TimerCovers(n);
    case CheckQuorumTimeout => TimerCovers(n);
    case RecoverCommitted => ApplyThroughVolatile(n, n.commit);
    case SnapshotCompacted(index, term) => CompactedCovers(n, index, term);
    case ProposeSession(_, _, _) => ProposalCovers(n, ev);
    case ProposeSet(_, _, _, _, _) => ProposalCovers(n, ev);
    case ProposeDelete(_, _, _, _) => ProposalCovers(n, ev);
    case ConfirmRead(id) => ConfirmReadCovers(n, id);
    case AppendFailed(to, id) => AppendFailedCovers(n, to, id);
    case Receive(from, m) => ReceiveCovers(n, from, m);
    case ReceiveSnapshot(from, m, st) => if m.SnapshotRequest? { SnapshotRequestCovers(n, from, m, st); }
  }
}
