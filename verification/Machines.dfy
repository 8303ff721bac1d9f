/** Which entries a step feeds the state machine: exactly the committed entries
    between the old and the new lastApplied, each once and in log order. */
module Machines {
  import opened Types
  import opened Messages
  import opened Node
  import opened Cluster
  import Sessions

  /** The entries a list of effects applies, in order. */
  function Applied(actions: seq<Action>): seq<Entry> {
    if actions == [] then []
    else Applied(actions[..|actions| - 1]) + (match actions[|actions| - 1] case ApplyEntry(e) => [e] case _ => [])
  }

  predicate NoRestore(actions: seq<Action>) {
    forall a :: a in actions ==> !a.RestoreSnapshot?
  }

  predicate Silent(actions: seq<Action>) {
    forall a :: a in actions ==> !a.RestoreSnapshot? && !a.ApplyEntry?
  }

  lemma {:induction false} AppliedConcat(a: seq<Action>, b: seq<Action>)
    ensures Applied(a + b) == Applied(a) + Applied(b)
    decreases |b|
  {
    if b == [] {
      assert a + b == a;
    } else {
      assert (a + b)[..|a + b| - 1] == a + b[..|b| - 1];
      AppliedConcat(a, b[..|b| - 1]);
    }
  }

  lemma {:induction false} SilentApplies(actions: seq<Action>)
    requires Silent(actions)
    ensures Applied(actions) == []
    decreases |actions|
  {
    if actions != [] {
      assert actions[|actions| - 1] in actions;
      SilentApplies(actions[..|actions| - 1]);
    }
  }

  lemma {:induction false} ReplayConcat(m: Sessions.Machine, a: seq<Entry>, b: seq<Entry>)
    ensures Sessions.Replay(m, a + b) == Sessions.Replay(Sessions.Replay(m, a), b)
    decreases |b|
  {
    if b == [] {
      assert a + b == a;
    } else {
      assert (a + b)[..|a + b| - 1] == a + b[..|b| - 1];
      ReplayConcat(m, a, b[..|b| - 1]);
    }
  }

  /** Feeding effects to the state machine replays the entries they apply. */
  lemma {:induction false} ConsumeReplays(m: Sessions.Machine, image: Sessions.Machine, actions: seq<Action>)
    requires NoRestore(actions)
    ensures Consume(m, image, actions) == Sessions.Replay(m, Applied(actions))
    decreases |actions|
  {
    if actions != [] {
      var init, last := actions[..|actions| - 1], actions[|actions| - 1];
      ConsumeReplays(m, image, init);
      assert last in actions;
      if last.ApplyEntry? {
        assert (Applied(init) + [last.entry])[..|Applied(init)|] == Applied(init);
      } else {
        assert Applied(actions) == Applied(init);
      }
    }
  }

  // ------------------------------------------------------------ silent helpers

  lemma {:induction false} BroadcastSilent(peers: seq<NodeId>, m: Message)
    ensures Silent(Broadcast(peers, m))
    decreases |peers|
  {
    if peers != [] { BroadcastSilent(peers[1..], m); }
  }

  lemma SendToSilent(n: Node, peer: NodeId, readId: nat)
    ensures var r := SendTo(n, peer, readId); Silent(r.actions) && r.node.log == n.log && r.node.base == n.base && r.node.lastApplied == n.lastApplied && r.node.commit == n.commit
  {
  }

  lemma {:induction false} SendAllSilent(n: Node, peers: seq<NodeId>, readId: nat)
    ensures var r := SendAll(n, peers, readId); Silent(r.actions) && r.node.log == n.log && r.node.base == n.base && r.node.lastApplied == n.lastApplied && r.node.commit == n.commit
    decreases |peers|
  {
    if peers != [] {
      var carried := if readId == 0 then PendingReadFor(n, peers[0]) else readId;
      SendToSilent(n, peers[0], carried);
      SendAllSilent(SendTo(n, peers[0], carried).node, peers[1..], readId);
    }
  }

  lemma {:induction false} CompleteReadsSilent(n: Node)
    ensures var r := CompleteReads(n); Silent(r.actions) && r.node == n.(waiting := r.node.waiting)
    decreases |ReadyReads(n)|
  {
    var ready := ReadyReads(n);
    if ready != {} {
      var n' := n.(waiting := n.waiting - {Least(ready)});
      assert ReadyReads(n') == ready - {Least(ready)};
      CompleteReadsSilent(n');
    }
  }

  lemma AckReadSilent(n: Node, from: NodeId, readId: nat)
    ensures var r := AckRead(n, from, readId); Silent(r.actions) && r.node == n.(waiting := r.node.waiting)
  {
    if readId != 0 && readId in n.waiting && !n.waiting[readId].confirmed {
      var acks := n.waiting[readId].acks + {from};
      CompleteReadsSilent(n.(waiting := n.waiting[readId := PendingRead(acks, n.commit, true)]));
    }
  }

  // ------------------------------------------------------------------ applying

  /** Effects that apply nothing may stand before and after. */
  lemma FramedApplies(pre: seq<Action>, mid: seq<Action>, post: seq<Action>)
    requires Silent(pre) && Silent(post) && NoRestore(mid)
    ensures Applied(pre + mid + post) == Applied(mid) && NoRestore(pre + mid + post)
  {
    hide Applied;
    AppliedConcat(pre + mid, post);
    AppliedConcat(pre, mid);
    SilentApplies(pre);
    SilentApplies(post);
    assert [] + Applied(mid) + [] == Applied(mid);
  }

  lemma OneApplies(e: Entry)
    ensures Applied([ApplyEntry(e)]) == [e]
  {
    assert [ApplyEntry(e)][..0] == [];
  }

  lemma ApplyOneApplies(n: Node)
    requires n.base <= n.lastApplied < LastIndex(n)
    ensures var r := ApplyOne(n); Applied(r.actions) == [n.log[n.lastApplied - n.base]] && NoRestore(r.actions)
    ensures ApplyOne(n).node == n.(lastApplied := n.lastApplied + 1, readReady := ApplyOne(n).node.readReady)
  {
    hide Applied;
    var e := n.log[n.lastApplied - n.base];
    var tail := ApplyOne(n).actions[1..];
    OneApplies(e);
    FramedApplies([], [ApplyEntry(e)], tail);
    assert ApplyOne(n).actions == [] + [ApplyEntry(e)] + tail;
  }

  /** ApplyThrough applied the entries from the old to the new lastApplied. */
  ghost predicate AppliesUpTo(n: Node, r: Effect) {
    && r.node.base == n.base && r.node.log == n.log && n.base <= n.lastApplied <= r.node.lastApplied <= LastIndex(n)
    && NoRestore(r.actions) && Applied(r.actions) == n.log[n.lastApplied - n.base..r.node.lastApplied - n.base]
  }

  lemma AppliesJoin(n: Node, one: Effect, rest: Effect)
    requires n.base <= n.lastApplied < LastIndex(n) && one == ApplyOne(n) && AppliesUpTo(one.node, rest)
    ensures AppliesUpTo(n, Effect(rest.node, one.actions + rest.actions))
  {
    hide Applied, ApplyOne;
    ApplyOneApplies(n);
    AppliedConcat(one.actions, rest.actions);
    var a, b := n.lastApplied - n.base, rest.node.lastApplied - n.base;
    assert [n.log[a]] + n.log[a + 1..b] == n.log[a..b];
  }

  lemma {:induction false} ApplyThroughApplies(n: Node, index: nat)
    requires n.base <= n.lastApplied <= LastIndex(n)
    ensures AppliesUpTo(n, ApplyThrough(n, index))
    decreases index - n.lastApplied
  {
    hide Applied, AppliesUpTo;
    if index <= n.lastApplied || !(n.base <= n.lastApplied < LastIndex(n)) {
      CompleteReadsSilent(n);
      SilentEffect(n, CompleteReads(n));
    } else {
      var one := ApplyOne(n);
      ApplyThroughApplies(one.node, index);
      AppliesJoin(n, one, ApplyThrough(one.node, index));
    }
  }

  lemma SilentEffect(n: Node, r: Effect)
    requires Silent(r.actions) && r.node == n.(waiting := r.node.waiting) && n.base <= n.lastApplied <= LastIndex(n)
    ensures AppliesUpTo(n, r)
  {
    SilentApplies(r.actions);
  }

  /** The step applies exactly what it moves lastApplied over. */
  ghost predicate Applies(n: Node, r: StepResult) {
    && r.node.base == n.base && n.base <= n.lastApplied <= r.node.lastApplied <= LastIndex(r.node)
    && NoRestore(r.actions)
    && Applied(r.actions) == r.node.log[n.lastApplied - n.base..r.node.lastApplied - n.base]
  }

  lemma SilentStep(n: Node, r: StepResult)
    requires Silent(r.actions) && r.node.base == n.base && r.node.lastApplied == n.lastApplied && n.base <= n.lastApplied <= LastIndex(r.node)
    ensures Applies(n, r)
  {
    SilentApplies(r.actions);
  }

  predicate Sound(n: Node) { n.base <= n.lastApplied <= n.commit <= LastIndex(n) }

  lemma ElectionApplies(n: Node)
    requires Sound(n)
    ensures Applies(n, StartElection(n)) && Applies(n, OnElectionTimeout(n))
  {
    BroadcastSilent(n.peers, VoteRequest(n.term + 1, LastIndex(n), LastTerm(n)));
    BroadcastSilent(n.peers, PreVoteRequest(n.term + 1, LastIndex(n), LastTerm(n)));
    SilentStep(n, StartElection(n));
    SilentStep(n, OnElectionTimeout(n));
  }

  lemma StepDownApplies(n: Node, term: nat)
    requires Sound(n)
    ensures Applies(n, StepDown(n, term)) && Applies(n, Unchanged(n))
  {
    SilentStep(n, StepDown(n, term));
    SilentStep(n, Unchanged(n));
  }

  lemma VoteReplyApplies(n: Node, from: NodeId, m: Message)
    requires Sound(n) && m.VoteReply?
    ensures Applies(n, OnVoteReply(n, from, m))
  {
    hide SendAll;
    var noop := FirstEntry(n);
    var n1 := n.(votes := n.votes + {from});
    var n2 := n1.(role := Leader, leaderId := n.id, activePeers := {}, matchIndex := map[],
                  inFlight := map[], snapInFlight := map[], readReady := false,
                  log := n.log + [noop], nextIndex := InitialNext(n.peers, LastIndex(n) + 2));
    SendAllSilent(n2, n2.peers, 0);
    SilentStep(n, OnVoteReply(n, from, m));
  }

  lemma ProposalApplies(n: Node, ev: Event)
    requires Sound(n) && (ev.ProposeSession? || ev.ProposeSet? || ev.ProposeDelete?)
    ensures Applies(n, OnPropose(n, ev))
  {
    hide SendAll;
    forall e: Entry ensures Applies(n, Propose(n, ev.proposalId, e)) {
      SendAllSilent(n.(log := n.log + [e]), n.peers, 0);
      SilentStep(n, Propose(n, ev.proposalId, e));
    }
    hide Propose, Applies;
    StepDownApplies(n, n.term);
    SilentStep(n, StepResult(n, [], [ProposalRejected(ev.proposalId, n.leaderId)]));
  }

  lemma TimersApply(n: Node)
    requires Sound(n)
    ensures Applies(n, OnHeartbeat(n)) && Applies(n, OnCheckQuorum(n))
  {
    hide SendAll, Applies;
    SendAllSilent(n.(inFlight := map[]), n.peers, 0);
    SilentStep(n, OnHeartbeat(n));
    SilentStep(n, OnCheckQuorum(n));
  }

  lemma ConfirmReadApplies(n: Node, readId: nat)
    requires Sound(n)
    ensures Applies(n, OnConfirmRead(n, readId))
  {
    hide SendAll, Applies;
    SendAllSilent(n.(waiting := n.waiting[readId := PendingRead({n.id}, 0, false)]), n.peers, readId);
    SilentStep(n, OnConfirmRead(n, readId));
  }

  lemma AppendFailedApplies(n: Node, to: NodeId, requestId: nat)
    requires Sound(n)
    ensures Applies(n, OnAppendFailed(n, to, requestId))
  {
    hide Applies;
    SilentStep(n, OnAppendFailed(n, to, requestId));
  }

  lemma FinishApplies(n0: Node, n: Node, writes: seq<Write>, from: NodeId, m: Message)
    requires m.AppendRequest? && Sound(n) && n.base == n0.base && n.lastApplied == n0.lastApplied
    ensures Applies(n0, FinishAppend(n, writes, from, m))
  {
    hide ApplyThrough, Applied;
    var target := Min(m.leaderCommit, LastIndex(n));
    var n1 := if target > n.commit then n.(commit := target) else n;
    ApplyThroughApplies(n1, n1.commit);
    FramedApplies([ResetElectionTimer], ApplyThrough(n1, n1.commit).actions, [Reply(n, from, m.requestId, true, Hint(0, 0), m.readId)]);
  }

  /** A Follower never replaces an entry it has committed. */
  lemma {:induction false} PlanAboveCommit(n: Node, want: nat, entries: seq<Entry>)
    requires Sound(n)
    ensures var plan := PlanAppend(n, want, entries); plan.Store? ==> Sound(StoreEntries(n, plan.truncateFrom, plan.tail))
    decreases |entries|
  {
    if entries != [] && entries[0].index == want && want <= LastIndex(n) && TermAt(n, want) == entries[0].term {
      PlanAboveCommit(n, want + 1, entries[1..]);
    }
  }

  lemma AppendRequestApplies(n: Node, from: NodeId, m: Message)
    requires Sound(n) && m.AppendRequest?
    ensures Applies(n, OnAppendRequest(n, from, m))
  {
    hide FinishAppend, StoreWrites, PlanAppend, Matches, ConflictHint, HardStateIf;
    if n.term <= m.term {
      var n1 := Recognise(n, m.term, from);
      var hs := HardStateIf(m.term > n.term, n1);
      PlanAboveCommit(n1, m.prevIndex + 1, m.entries);
      var plan := PlanAppend(n1, m.prevIndex + 1, m.entries);
      if !Matches(n1, m.prevIndex, m.prevTerm) || plan.Refuse? {
        SilentStep(n, OnAppendRequest(n, from, m));
      } else if plan.Nothing? {
        FinishApplies(n, n1, hs, from, m);
      } else {
        FinishApplies(n, StoreEntries(n1, plan.truncateFrom, plan.tail), hs + StoreWrites(plan.truncateFrom, plan.tail), from, m);
      }
    } else {
      SilentStep(n, OnAppendRequest(n, from, m));
    }
  }

  lemma {:induction false} LeaderCommitRange(n: Node, index: nat)
    requires index <= LastIndex(n)
    ensures n.commit <= LeaderCommit(n, index) && (LeaderCommit(n, index) <= LastIndex(n) || LeaderCommit(n, index) == n.commit)
  {
    if index > n.commit && !Committable(n, index) { LeaderCommitRange(n, index - 1); }
  }

  lemma CommittingApplies(n: Node, n1: Node, from: NodeId, readId: nat, index: nat)
    requires Sound(n1) && n.base == n1.base && n.lastApplied == n1.lastApplied && n1.commit < index <= LastIndex(n1)
    ensures var sent := SendAll(n1.(commit := index), n1.peers, 0);
            var read := AckRead(sent.node, from, readId);
            var applied := ApplyThrough(read.node, index);
            Applies(n, StepResult(applied.node, [SaveCommit(index)], read.actions + applied.actions + sent.actions))
  {
    hide SendAll, AckRead, ApplyThrough, Applied;
    SendAllSilent(n1.(commit := index), n1.peers, 0);
    var sent := SendAll(n1.(commit := index), n1.peers, 0);
    AckReadSilent(sent.node, from, readId);
    var read := AckRead(sent.node, from, readId);
    ApplyThroughApplies(read.node, index);
    FramedApplies(read.actions, ApplyThrough(read.node, index).actions, sent.actions);
  }

  lemma PlainApplies(n: Node, n1: Node, from: NodeId, readId: nat, send: bool)
    requires Sound(n1) && n.base == n1.base && n.lastApplied == n1.lastApplied
    ensures var sent := if send then SendTo(n1, from, PendingReadFor(n1, from)) else Effect(n1, []);
            var read := AckRead(sent.node, from, readId);
            Applies(n, StepResult(read.node, [], sent.actions + read.actions))
  {
    hide AckRead, SendTo, PendingReadFor, Applies;
    SendToSilent(n1, from, PendingReadFor(n1, from));
    var sent := if send then SendTo(n1, from, PendingReadFor(n1, from)) else Effect(n1, []);
    AckReadSilent(sent.node, from, readId);
    var read := AckRead(sent.node, from, readId);
    SilentStep(n, StepResult(read.node, [], sent.actions + read.actions));
  }

  lemma CurrentReplyApplies(n: Node, from: NodeId, m: Message, leaderCommit: nat)
    requires Sound(n) && m.AppendReply?
    ensures Applies(n, CurrentReply(n, from, m, leaderCommit))
  {
    hide SendAll, AckRead, ApplyThrough, SendTo, PendingReadFor, LeaderCommit, Applies;
    var n1 := NoteReply(n, from, m);
    LeaderCommitRange(n1, LastIndex(n1));
    var index := LeaderCommit(n1, LastIndex(n1));
    if index > n1.commit {
      CommittingApplies(n, n1, from, m.readId, index);
    } else {
      PlainApplies(n, n1, from, m.readId,
        !m.success || Get(n1.nextIndex, from, 0) <= LastIndex(n1) || PendingReadFor(n1, from) != 0 || leaderCommit < n1.commit);
    }
  }

  lemma SnapshotReplyApplies(n: Node, from: NodeId, m: Message)
    requires Sound(n) && m.SnapshotReply?
    ensures Applies(n, OnSnapshotReply(n, from, m))
  {
    hide SendTo, PendingReadFor;
    var n1 := n.(snapInFlight := n.snapInFlight - {from},
                 matchIndex := n.matchIndex[from := Max(Get(n.matchIndex, from, 0), m.index)],
                 nextIndex := n.nextIndex[from := m.index + 1]);
    SendToSilent(n1, from, PendingReadFor(n1, from));
    SilentStep(n, OnSnapshotReply(n, from, m));
  }

  lemma VotingApplies(n: Node, from: NodeId, m: Message)
    requires Sound(n) && (m.PreVoteRequest? || m.PreVoteReply? || m.VoteRequest?)
    ensures Applies(n, OnReceive(n, from, m))
  {
    match m
    case PreVoteRequest(_, _, _) => SilentStep(n, OnPreVoteRequest(n, from, m));
    case VoteRequest(_, _, _) => SilentStep(n, OnVoteRequest(n, from, m));
    case PreVoteReply(_, currentTerm, _) =>
      StepDownApplies(n, currentTerm);
      var n' := n.(preVotes := n.preVotes + {from});
      SilentStep(n, Unchanged(n'));
      ElectionApplies(n');
  }

  lemma ReceiveApplies(n: Node, from: NodeId, m: Message)
    requires Sound(n)
    ensures Applies(n, OnReceive(n, from, m))
  {
    hide Applies, OnPreVoteRequest, OnPreVoteReply, OnVoteRequest, OnVoteReply, OnAppendRequest, CurrentReply, OnSnapshotReply;
    StepDownApplies(n, m.term);
    match m
    case VoteReply(_, _) => VoteReplyApplies(n, from, m);
    case AppendRequest(_, _, _, _, _, _, _) => AppendRequestApplies(n, from, m);
    case AppendReply(_, _, _, _, _, _, _) => CurrentReplyApplies(n, from, m, Get(n.inFlight, from, InFlight(0, 0)).leaderCommit);
    case SnapshotReply(_, _, _, _, _, _) => SnapshotReplyApplies(n, from, m);
    case SnapshotRequest(_, _, _, _, _) =>
    case _ => VotingApplies(n, from, m);
  }

  /** Every step that moves no Snapshot applies the entries it says it applied. */
  lemma StepApplies(n: Node, ev: Event)
    requires Sound(n) && !ev.ReceiveSnapshot? && !ev.SnapshotCompacted?
    ensures Applies(n, Step(n, ev))
  {
    hide OnElectionTimeout, OnHeartbeat, OnCheckQuorum, OnReceive, ApplyThrough, OnPropose, OnConfirmRead, OnAppendFailed;
    match ev
    case ElectionTimeout => ElectionApplies(n);
    case HeartbeatTimeout => TimersApply(n);
    case CheckQuorumTimeout => TimersApply(n);
    case RecoverCommitted => ApplyThroughApplies(n, n.commit);
    case ProposeSession(_, _, _) => ProposalApplies(n, ev);
    case ProposeSet(_, _, _, _, _) => ProposalApplies(n, ev);
    case ProposeDelete(_, _, _, _) => ProposalApplies(n, ev);
    case ConfirmRead(id) => ConfirmReadApplies(n, id);
    case AppendFailed(to, id) => AppendFailedApplies(n, to, id);
    case Receive(from, m) => ReceiveApplies(n, from, m);
  }
}
