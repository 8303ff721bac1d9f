/** The runtime step of internal/node/raft_runtime.go: it drives the core object
    and the WAL object until nothing is left to persist. */
module Runtime {
  import opened Types
  import opened Messages
  import opened Node
  import Spec = Node
  import opened Core
  import opened Draining
  import opened Refinement
  import opened Durability
  import opened WalReplay
  import opened WalHistory
  import opened Agreement
  import WalStore
  import opened RaftNode

  // ------------------------------------------------------------ writes and the WAL

  lemma {:induction false} LiveIsApply(d: Durable, ws: seq<Write>)
    ensures Live(d, ws) == ApplyWrites(d, ws)
    decreases |ws|
  {
    if ws != [] {
      LiveIsApply(ApplyWrite(d, ws[0]), ws[1..]);
      OneWrite(d, ws[0]);
      WritesConcat(d, [ws[0]], ws[1..]);
      assert [ws[0]] + ws[1..] == ws;
    }
  }

  lemma AcceptedFirst(d: Durable, w: Write, rest: seq<Write>)
    ensures Accepted(d, [w] + rest) <==> CanWrite(d, w) && Accepted(ApplyWrite(d, w), rest)
  {
    assert ([w] + rest)[1..] == rest;
  }

  /** Appends are accepted when the entries continue the log. */
  lemma {:induction false} AcceptedAppends(d: Durable, entries: seq<Entry>, rest: seq<Write>)
    ensures Accepted(d, Appends(entries) + rest) <==> WellIndexed(entries, Last(d)) && Accepted(d.(log := d.log + entries), rest)
    decreases |entries|
  {
    if entries == [] {
      assert Appends(entries) + rest == rest && d.log + entries == d.log;
    } else {
      var e, more := entries[0], entries[1..];
      var d' := ApplyWrite(d, Append(e));
      assert Appends(entries) + rest == [Append(e)] + (Appends(more) + rest);
      AcceptedFirst(d, Append(e), Appends(more) + rest);
      AcceptedAppends(d', more, rest);
      assert d'.log + more == d.log + entries;
      assert WellIndexed(entries, Last(d)) <==> e.index == Last(d) + 1 && WellIndexed(more, Last(d) + 1) by { IndexedCons(entries, Last(d)); }
    }
  }

  lemma IndexedCons(entries: seq<Entry>, base: nat)
    requires entries != []
    ensures WellIndexed(entries, base) <==> entries[0].index == base + 1 && WellIndexed(entries[1..], base + 1)
  {
    if entries[0].index == base + 1 && WellIndexed(entries[1..], base + 1) {
      forall i | 0 <= i < |entries| ensures entries[i].index == base + i + 1 {
        if i > 0 { assert entries[1..][i - 1] == entries[i]; }
      }
    }
    if WellIndexed(entries, base) {
      forall i | 0 <= i < |entries[1..]| ensures entries[1..][i].index == base + 1 + i + 1 {
        assert entries[1..][i] == entries[i + 1];
      }
    }
  }

  /** A log persistence always carries entries. */
  predicate Solid(a: CoreAction) { a.PersistLog? ==> a.entries != [] }

  predicate AllSolid(queue: seq<CoreAction>) { forall a :: a in queue ==> Solid(a) }

  /** The WAL's history since it was opened grew by exactly these writes; its
      records follow, because Wal.Valid ties them to the history. */
  twostate predicate Extended(wal: WalStore.Wal, ws: seq<Write>)
    reads wal
  {
    wal.origin == old(wal.origin) && wal.past == old(wal.past) && wal.history == old(wal.history) + ws
  }

  /** The WAL half of one loop iteration. */
  method Persist(wal: WalStore.Wal, a: CoreAction, ghost rest: seq<Write>) returns (ok: bool)
    requires wal.Valid() && !a.Emit?
    modifies wal
    ensures wal.Valid()
    ensures ok ==> wal.live == ApplyWrites(old(wal.live), WritesFor(a)) && Extended(wal, WritesFor(a))
    ensures Solid(a) && Accepted(old(wal.live), WritesFor(a) + rest) ==> ok && Accepted(wal.live, rest)
  {
    ghost var d := wal.live;
    match a
    case PersistHardState(_, term, votedFor) =>
      wal.SaveHardState(HardState(term, votedFor));
      AcceptedFirst(d, SaveHardState(term, votedFor), rest);
      OneWrite(d, SaveHardState(term, votedFor));
      ok := true;
    case PersistLog(_, truncateFrom, entries) =>
      ok := PersistEntries(wal, truncateFrom, entries, rest);
    case PersistCommit(_, index) =>
      ok := wal.SaveCommitIndex(index);
      AcceptedFirst(d, SaveCommit(index), rest);
      OneWrite(d, SaveCommit(index));
    case PersistSnapshot(_, index, snapTerm, keep) =>
      ok := wal.InstallSnapshot(index, snapTerm, keep);
      AcceptedFirst(d, Checkpoint(index, snapTerm, keep), rest);
      OneWrite(d, Checkpoint(index, snapTerm, keep));
  }

  method PersistEntries(wal: WalStore.Wal, truncateFrom: nat, entries: seq<Entry>, ghost rest: seq<Write>) returns (ok: bool)
    requires wal.Valid()
    modifies wal
    ensures wal.Valid()
    ensures ok ==> wal.live == ApplyWrites(old(wal.live), StoreWrites(truncateFrom, entries)) && Extended(wal, StoreWrites(truncateFrom, entries))
    ensures entries != [] && Accepted(old(wal.live), StoreWrites(truncateFrom, entries) + rest) ==> ok && Accepted(wal.live, rest)
  {
    ghost var d := wal.live;
    StoreShape(truncateFrom, entries, rest);
    if truncateFrom != 0 {
      AcceptedFirst(d, Truncate(truncateFrom), Appends(entries) + rest);
      ok := wal.TruncateLog(truncateFrom);
      if !ok { return; }
      OneWrite(d, Truncate(truncateFrom));
    }
    ghost var middle := wal.live;
    AcceptedAppends(middle, entries, rest);
    ok := wal.SaveLogEntries(entries);
    AppendsAdd(middle, entries);
    if truncateFrom != 0 { WritesConcat(d, [Truncate(truncateFrom)], Appends(entries)); }
  }

  lemma StoreShape(truncateFrom: nat, entries: seq<Entry>, rest: seq<Write>)
    ensures StoreWrites(truncateFrom, entries) == (if truncateFrom != 0 then [Truncate(truncateFrom)] else []) + Appends(entries)
    ensures truncateFrom != 0 ==> StoreWrites(truncateFrom, entries) + rest == [Truncate(truncateFrom)] + (Appends(entries) + rest)
    ensures truncateFrom == 0 ==> StoreWrites(truncateFrom, entries) == Appends(entries)
  {
  }

  // ---------------------------------------------------------------- what may happen

  /** Everything a core still has to release is solid. */
  predicate SolidCore(c: Core) {
    && (forall k :: k in c.hard ==> AllSolid(c.hard[k].after))
    && (forall k :: k in c.commits ==> AllSolid(c.commits[k].after))
  }

  lemma EmitsSolid(actions: seq<Action>)
    ensures AllSolid(Emits(actions))
  {
  }

  lemma SolidConcat(a: seq<CoreAction>, b: seq<CoreAction>)
    requires AllSolid(a) && AllSolid(b)
    ensures AllSolid(a + b)
  {
  }

  lemma AdvanceSolid(c: Core, leaderCommit: nat, reply: CoreAction)
    requires SolidCore(c) && reply.Emit?
    ensures var out := AdvanceFollower(c, leaderCommit, reply); SolidCore(out.core) && AllSolid(out.queue) && out.core.snapshots == c.snapshots
  {
    hide ApplyThrough, Emits;
    EmitsSolid(ApplyThrough(c.node, c.durableCommit).actions);
  }

  lemma CompleteSolid(c: Core, a: CoreAction)
    requires SolidCore(c) && Orderly(c)
    ensures var out := Complete(c, a); SolidCore(out.core) && AllSolid(out.queue) && out.core.snapshots.Keys <= c.snapshots.Keys
  {
    hide ApplyThrough, Emits, AdvanceFollower, Install, SendAll, DurablePart;
    match a
    case PersistHardState(id, _, _) =>
    case PersistLog(id, _, _) =>
      if id in c.logs {
        var p := c.logs[id];
        var c' := c.(logs := c.logs - {id}, durableLog := Max(c.durableLog, p.lastIndex));
        EmitsSolid(SendAll(DurablePart(c'), c'.node.peers, 0).actions);
        if p.FollowerAppend? {
          AdvanceSolid(c', p.leaderCommit, Emit(Send(p.leader, AppendReply(c.node.term, p.requestId, true, p.lastIndex, 0, 0, p.readId))));
        }
      }
    case PersistCommit(id, _) => if id in c.commits { EmitsSolid(ApplyThrough(c.node, c.commits[id].index).actions); }
    case PersistSnapshot(id, _, _, _) =>
    case Emit(_) =>
  }

  /** Draining meets only log persistences with entries and Snapshots the core
      is ready for. */
  ghost predicate Safe(c: Core, queue: seq<CoreAction>)
    requires Orderly(c)
    decreases |c.hard.Keys|, |c.logs.Keys| + |c.snapshots.Keys|, |c.commits.Keys|, |queue|
  {
    if queue == [] then true
    else if queue[0].Emit? then Safe(c, queue[1..])
    else
      var r := Complete(c, queue[0]);
      CompletionsEnd(c, queue[0]);
      && Solid(queue[0])
      && (queue[0].PersistSnapshot? ==> SnapshotReady(c, queue[0].id))
      && Safe(r.core, queue[1..] + r.queue)
  }

  lemma {:induction false} SolidSafe(c: Core, queue: seq<CoreAction>)
    requires Orderly(c) && SolidCore(c) && AllSolid(queue) && c.snapshots == map[]
    ensures Safe(c, queue)
    decreases |c.hard.Keys|, |c.logs.Keys| + |c.snapshots.Keys|, |c.commits.Keys|, |queue|
  {
    hide Complete, SolidCore, AllSolid, SnapshotReady, Solid;
    if queue != [] {
      FirstSolid(queue);
      if queue[0].Emit? {
        SolidSafe(c, queue[1..]);
      } else {
        var r := Complete(c, queue[0]);
        CompletionsEnd(c, queue[0]);
        CompleteSolid(c, queue[0]);
        assert r.core.snapshots == map[];
        SolidConcat(queue[1..], r.queue);
        if queue[0].PersistSnapshot? { NothingReady(c, queue[0].id); }
        SolidSafe(r.core, queue[1..] + r.queue);
      }
    }
  }

  lemma FirstSolid(queue: seq<CoreAction>)
    requires AllSolid(queue) && queue != []
    ensures Solid(queue[0]) && AllSolid(queue[1..])
  {
  }

  lemma NothingReady(c: Core, id: nat)
    requires c.snapshots == map[]
    ensures SnapshotReady(c, id)
  {
  }

  lemma {:induction false} EmitsSafe(c: Core, actions: seq<Action>, rest: seq<CoreAction>)
    requires Orderly(c) && Safe(c, rest)
    ensures Safe(c, Emits(actions) + rest)
    decreases |actions|
  {
    if actions == [] {
      assert Emits(actions) + rest == rest;
    } else {
      assert (Emits(actions) + rest)[1..] == Emits(actions[1..]) + rest;
      EmitsSafe(c, actions[1..], rest);
    }
  }

  /** A handler's output is solid and has no Snapshot outstanding. */
  predicate SolidOutput(out: Output) {
    Orderly(out.core) && SolidCore(out.core) && AllSolid(out.queue) && out.core.snapshots == map[]
  }

  predicate Clear(c: Core) { c.hard == map[] && c.commits == map[] && c.snapshots == map[] }

  lemma AfterTermSolid(c: Core, changed: bool, after: seq<CoreAction>)
    requires SolidCore(c) && c.snapshots == map[] && AllSolid(after)
    ensures SolidOutput(AfterTerm(c, changed, after))
  {
  }

  lemma QuietSolid(c: Core, n: Node, actions: seq<Action>)
    requires Clear(c)
    ensures SolidOutput(Output(c.(node := n), Emits(actions))) && SolidOutput(Output(c.(node := n), []))
  {
    EmitsSolid(actions);
  }

  lemma HardSolid(c: Core, n: Node, actions: seq<Action>)
    requires Clear(c)
    ensures SolidOutput(AskHard(c.(node := n), Emits(actions)))
  {
    EmitsSolid(actions);
    AfterTermSolid(c.(node := n), true, Emits(actions));
  }

  lemma StepDownSolid(c: Core, term: nat)
    requires Clear(c)
    ensures SolidOutput(StepDownTo(c, term)) && SolidOutput(Output(c, []))
  {
    assert Emits([]) == [];
    HardSolid(c, BecomeFollower(c.node, term, ""), []);
  }

  lemma StandSolid(c: Core)
    requires Clear(c)
    ensures SolidOutput(StandForElection(c)) && SolidOutput(HandleElectionTimeout(c))
  {
    hide Emits, Broadcast;
    var n := c.node.(recentContact := false, leaderId := "", role := PreCandidate, preVotes := {c.node.id});
    HardSolid(c, StartElection(c.node).node, StartElection(c.node).actions);
    HardSolid(c, StartElection(n).node, StartElection(n).actions);
    EmitsSolid(Broadcast(n.peers, PreVoteRequest(n.term + 1, LastIndex(n), LastTerm(n))));
  }

  lemma VoteSolid(c: Core, from: NodeId, m: Message)
    requires Clear(c) && (m.PreVoteReply? || m.VoteRequest? || m.VoteReply?)
    ensures m.PreVoteReply? ==> SolidOutput(HandlePreVoteReply(c, from, m))
    ensures m.VoteRequest? ==> SolidOutput(HandleVoteRequest(c, from, m))
    ensures m.VoteReply? ==> SolidOutput(HandleVoteReply(c, from, m))
  {
    hide StepDownTo, StandForElection, HandleElectionTimeout, Officer;
    StepDownSolid(c, if m.PreVoteReply? then m.currentTerm else m.term);
    StandSolid(c.(node := c.node.(preVotes := c.node.preVotes + {from})));
  }

  lemma ProposeSolid(c: Core, ev: Event)
    requires Clear(c) && (ev.ProposeSession? || ev.ProposeSet? || ev.ProposeDelete?)
    ensures SolidOutput(HandlePropose(c, ev))
  {
  }

  lemma SendEachSolid(c: Core, n: Node, readId: nat)
    requires Clear(c)
    ensures var out := SendEach(c.(node := n), readId); SolidOutput(out) && SolidOutput(Output(out.core, [Emit(ResetHeartbeatTimer)] + out.queue))
  {
    hide Emits, SendAll, DurablePart;
    var c1 := c.(node := n);
    EmitsSolid(SendAll(DurablePart(c1), n.peers, readId).actions);
  }

  lemma TimersSolid(c: Core, readId: nat)
    requires Clear(c)
    ensures SolidOutput(HandleHeartbeat(c)) && SolidOutput(HandleConfirmRead(c, readId))
  {
    hide SendEach;
    SendEachSolid(c, c.node.(inFlight := map[]), 0);
    SendEachSolid(c, c.node.(waiting := c.node.waiting[readId := PendingRead({c.node.id}, 0, false)]), readId);
  }

  lemma AppendSolid(c: Core, from: NodeId, m: Message)
    requires Clear(c) && c.node.base <= c.node.commit && m.AppendRequest?
    ensures SolidOutput(HandleAppend(c, from, m))
  {
    hide Recognise, AppendRecognised, Reply;
    if c.node.term <= m.term {
      RecogniseKeeps(c.node, m.term, from);
      RecognisedSolid(c.(node := Recognise(c.node, m.term, from)), m.term > c.node.term, from, m);
    }
  }

  lemma RecognisedSolid(c: Core, changed: bool, from: NodeId, m: Message)
    requires Clear(c) && c.node.base <= c.node.commit && m.AppendRequest?
    ensures SolidOutput(AppendRecognised(c, changed, from, m))
  {
    hide PlanAppend, Matches, ConflictHint, StoreEntries, AdvanceFollower, Reply, AfterTerm, SolidOutput, AllSolid;
    var n := c.node;
    var plan := PlanAppend(n, m.prevIndex + 1, m.entries);
    var refusal := if Matches(n, m.prevIndex, m.prevTerm) then ConflictHint(n, m.prevIndex + 1) else ConflictHint(n, m.prevIndex);
    var no := Reply(n, from, m.requestId, false, refusal, m.readId);
    TwoSolid(ResetElectionTimer, no);
    AfterTermSolid(c, changed, [Emit(ResetElectionTimer), Emit(no)]);
    TimerSolid([]);
    assert [Emit(ResetElectionTimer)] + [] == [Emit(ResetElectionTimer)];
    AfterTermSolid(c, changed, [Emit(ResetElectionTimer)]);
    var yes := Emit(Reply(n, from, m.requestId, true, Hint(0, 0), m.readId));
    AdvanceSolid(c, m.leaderCommit, yes);
    var done := AdvanceFollower(c, m.leaderCommit, yes);
    TimerSolid(done.queue);
    AfterTermSolid(done.core, changed, [Emit(ResetElectionTimer)] + done.queue);
    if plan.Store? { StoredSolid(c, changed, from, m, plan.truncateFrom, plan.tail); }
  }

  lemma StoredSolid(c: Core, changed: bool, from: NodeId, m: Message, truncateFrom: nat, tail: seq<Entry>)
    requires Clear(c) && c.node.base <= c.node.commit && m.AppendRequest? && PlanAppend(c.node, m.prevIndex + 1, m.entries) == Store(truncateFrom, tail)
    ensures SolidOutput(AppendStored(c, changed, from, m, truncateFrom, tail))
  {
    hide StoreEntries, AfterTerm, SolidOutput;
    PlanStores(c.node, m.prevIndex + 1, m.entries);
    var n' := StoreEntries(c.node, truncateFrom, tail);
    var c2 := c.(node := n', durableLog := if truncateFrom != 0 then Min(c.durableLog, truncateFrom - 1) else c.durableLog);
    var ask := AskLog(c2, truncateFrom, tail, FollowerAppend(m.term, from, m.requestId, LastIndex(n'), m.leaderCommit, m.readId));
    TimerSolid(ask.queue);
    AfterTermSolid(ask.core, changed, [Emit(ResetElectionTimer)] + ask.queue);
  }

  lemma TimerSolid(queue: seq<CoreAction>)
    ensures AllSolid([]) && (AllSolid(queue) ==> AllSolid([Emit(ResetElectionTimer)] + queue))
  {
  }

  lemma ReplySolid(c: Core, from: NodeId, m: Message)
    requires Clear(c) && m.AppendReply?
    ensures SolidOutput(HandleAppendReply(c, from, m))
  {
    hide StepDownTo, NoteReply, ReplyNoted;
    StepDownSolid(c, m.term);
    NotedSolid(c.(node := NoteReply(c.node, from, m)), from, m, Get(c.node.inFlight, from, InFlight(0, 0)).leaderCommit);
  }

  lemma NotedSolid(c: Core, from: NodeId, m: Message, leaderCommit: nat)
    requires Clear(c) && m.AppendReply?
    ensures SolidOutput(ReplyNoted(c, from, m, leaderCommit))
  {
    hide SendEach, SendOne, AckRead, Emits, LeaderCommit, PendingReadFor;
    var index := LeaderCommit(c.node, LastIndex(c.node));
    SendEachSolid(c, c.node.(commit := index), 0);
    SendEachClear(c.(node := c.node.(commit := index)), 0);
    SendOneSolid(c, from, PendingReadFor(c.node, from));
    var sent := SendEach(c.(node := c.node.(commit := index)), 0);
    EmitsSolid(AckRead(sent.core.node, from, m.readId).actions);
    var one := SendOne(c, from, PendingReadFor(c.node, from));
    EmitsSolid(AckRead(one.core.node, from, m.readId).actions);
    EmitsSolid(AckRead(c.node, from, m.readId).actions);
  }

  lemma SendEachClear(c: Core, readId: nat)
    requires Clear(c)
    ensures Clear(SendEach(c, readId).core)
  {
  }

  lemma SendOneSolid(c: Core, peer: NodeId, readId: nat)
    requires Clear(c)
    ensures SolidOutput(SendOne(c, peer, readId)) && Clear(SendOne(c, peer, readId).core)
  {
    hide Emits, SendTo, DurablePart;
    EmitsSolid(SendTo(DurablePart(c), peer, readId).actions);
  }

  lemma SnapshotReplySolid(c: Core, from: NodeId, m: Message)
    requires Clear(c) && m.SnapshotReply?
    ensures SolidOutput(HandleSnapshotReply(c, from, m))
  {
    hide StepDownTo, SendOne, PendingReadFor;
    StepDownSolid(c, m.term);
    var n := c.node;
    var c1 := c.(node := n.(snapInFlight := n.snapInFlight - {from},
                            matchIndex := n.matchIndex[from := Max(Get(n.matchIndex, from, 0), m.index)],
                            nextIndex := n.nextIndex[from := m.index + 1]));
    SendOneSolid(c1, from, PendingReadFor(c1.node, from));
  }

  lemma MessageSolid(c: Core, from: NodeId, m: Message)
    requires Clear(c) && c.node.base <= c.node.commit
    ensures SolidOutput(HandleMessage(c, from, m))
  {
    hide SolidOutput, HandlePreVoteReply, HandleVoteRequest, HandleVoteReply, HandleAppend, HandleAppendReply, HandleSnapshotReply, OnPreVoteRequest;
    match m
    case PreVoteRequest(_, _, _) => QuietSolid(c, OnPreVoteRequest(c.node, from, m).node, OnPreVoteRequest(c.node, from, m).actions);
    case AppendRequest(_, _, _, _, _, _, _) => AppendSolid(c, from, m);
    case AppendReply(_, _, _, _, _, _, _) => ReplySolid(c, from, m);
    case SnapshotReply(_, _, _, _, _, _) => SnapshotReplySolid(c, from, m);
    case SnapshotRequest(_, _, _, _, _) => StepDownSolid(c, m.term);
    case _ => VoteSolid(c, from, m);
  }

  lemma HandleSafe(c: Core, ev: Event)
    requires Clear(c) && Orderly(c) && c.node.base <= c.node.commit && !ev.ReceiveSnapshot?
    ensures var out := Handle(c, ev); Orderly(out.core) && Safe(out.core, out.queue)
  {
    hide SolidOutput, Safe, HandleElectionTimeout, HandleHeartbeat, OnCheckQuorum, OnCompacted, HandlePropose, HandleConfirmRead, OnAppendFailed, HandleMessage, ApplyThrough, Emits;
    match ev {
      case ElectionTimeout => StandSolid(c);
      case HeartbeatTimeout => TimersSolid(c, 0);
      case CheckQuorumTimeout => QuietSolid(c, OnCheckQuorum(c.node).node, OnCheckQuorum(c.node).actions);
      case RecoverCommitted => var r := ApplyThrough(c.node, c.durableCommit); QuietSolid(c, r.node, r.actions);
      case SnapshotCompacted(index, term) => var r := OnCompacted(c.node, index, term); QuietSolid(c, r.node, r.actions);
      case ProposeSession(_, _, _) => ProposeSolid(c, ev);
      case ProposeSet(_, _, _, _, _) => ProposeSolid(c, ev);
      case ProposeDelete(_, _, _, _) => ProposeSolid(c, ev);
      case ConfirmRead(id) => TimersSolid(c, id);
      case AppendFailed(to, id) => var r := OnAppendFailed(c.node, to, id); QuietSolid(c, r.node, r.actions);
      case Receive(from, m) => MessageSolid(c, from, m);
    }
    SolidOutputSafe(Handle(c, ev));
  }

  lemma SolidOutputSafe(out: Output)
    requires SolidOutput(out)
    ensures Orderly(out.core) && Safe(out.core, out.queue)
  {
    SolidSafe(out.core, out.queue);
  }

  /** A Leader's Snapshot never discards what the Node has committed. */
  predicate KeepsCommitted(n: Node, m: Message, st: Staged) {
    m.SnapshotRequest? && st.success && st.done && n.term <= m.term && m.index > n.base ==>
      n.commit <= m.index || (m.index <= LastIndex(n) && TermAt(n, m.index) == m.snapTerm)
  }

  lemma InstallSafe(c: Core, from: NodeId, m: Message, st: Staged, n: Node, changed: bool, keep: bool)
    requires Idle(c) && SameLog(c, n) && m.SnapshotRequest? && m.index > n.base
    requires if keep then m.index <= LastIndex(n) && TermAt(n, m.index) == m.snapTerm else n.commit <= m.index
    ensures var ask := AskSnapshot(c.(node := n), from, m, st, keep);
            var out := AfterTerm(ask.core, changed, [Emit(ResetElectionTimer)] + ask.queue);
            Orderly(out.core) && Safe(out.core, out.queue)
  {
    hide Safe, SnapshotReady, Idle, TermAt;
    var ask := AskSnapshot(c.(node := n), from, m, st, keep);
    var ready := ask.core.(nextHard := if changed then c.nextHard + 1 else c.nextHard,
                           durableTerm := if changed then n.term else c.durableTerm, durableVotedFor := if changed then n.votedFor else c.durableVotedFor);
    IdleCore(c);
    ReadySafe(c, from, m, st, n, keep, ready);
    EmitOne(ResetElectionTimer);
    EmitsSafe(ready, [ResetElectionTimer], ask.queue);
    if changed { HardSafe(ask.core, n, [Emit(ResetElectionTimer)] + ask.queue, ready); }
  }

  lemma IdleCore(c: Core)
    requires Idle(c)
    ensures Clear(c) && c.logs == map[] && c.durableLog == LastIndex(c.node)
  {
  }

  /** Once Term and vote are durable, the Snapshot is all that is left. */
  lemma ReadySafe(c: Core, from: NodeId, m: Message, st: Staged, n: Node, keep: bool, ready: Core)
    requires Clear(c) && c.durableLog == LastIndex(c.node) && SameLog(c, n) && m.SnapshotRequest? && m.index > n.base
    requires if keep then m.index <= LastIndex(n) && TermAt(n, m.index) == m.snapTerm else n.commit <= m.index
    requires var ask := AskSnapshot(c.(node := n), from, m, st, keep);
             ready == ask.core.(nextHard := ready.nextHard, durableTerm := ready.durableTerm, durableVotedFor := ready.durableVotedFor)
    ensures var ask := AskSnapshot(c.(node := n), from, m, st, keep); Orderly(ready) && Safe(ready, ask.queue)
  {
    hide TermAt, SnapshotReady, SnapshotPersisted, SolidCore, AllSolid;
    var ask := AskSnapshot(c.(node := n), from, m, st, keep);
    var id := c.nextSnapshot + 1;
    var done := SnapshotPersisted(ready, id);
    SnapshotAwaited(c, from, m, st, n, keep, ready);
    SnapshotSolid(ready, id);
    SolidSafe(done.core, done.queue);
    CompletionsEnd(ready, ask.queue[0]);
    assert ask.queue[1..] + done.queue == done.queue;
  }

  lemma SnapshotAwaited(c: Core, from: NodeId, m: Message, st: Staged, n: Node, keep: bool, ready: Core)
    requires Clear(c) && c.durableLog == LastIndex(c.node) && SameLog(c, n) && m.SnapshotRequest? && m.index > n.base
    requires if keep then m.index <= LastIndex(n) && TermAt(n, m.index) == m.snapTerm else n.commit <= m.index
    requires var ask := AskSnapshot(c.(node := n), from, m, st, keep);
             ready == ask.core.(nextHard := ready.nextHard, durableTerm := ready.durableTerm, durableVotedFor := ready.durableVotedFor)
    ensures SnapshotReady(ready, c.nextSnapshot + 1) && ready.snapshots.Keys == {c.nextSnapshot + 1}
    ensures Orderly(ready) && ready.hard == map[] && ready.commits == map[]
  {
  }

  lemma SnapshotSolid(c: Core, id: nat)
    requires Orderly(c) && c.hard == map[] && c.commits == map[] && c.snapshots.Keys == {id}
    ensures SolidOutput(SnapshotPersisted(c, id))
  {
    hide Install;
    assert c.snapshots - {id} == map[];
  }

  lemma HardSafe(c: Core, n: Node, after: seq<CoreAction>, ready: Core)
    requires Orderly(c) && c.hard == map[] && c.node == n && Orderly(ready) && Safe(ready, after)
    requires ready == c.(nextHard := c.nextHard + 1, durableTerm := n.term, durableVotedFor := n.votedFor)
    ensures var out := AskHard(c, after); Orderly(out.core) && Safe(out.core, out.queue)
  {
    var out := AskHard(c, after);
    assert out.core.hard - {c.nextHard + 1} == map[];
    CompletionsEnd(out.core, out.queue[0]);
    assert HardPersisted(out.core, c.nextHard + 1) == Output(ready, after);
    assert out.queue[1..] + after == after;
  }

  lemma SnapshotSafe(c: Core, from: NodeId, m: Message, st: Staged)
    requires Idle(c) && m.SnapshotRequest? && KeepsCommitted(c.node, m, st)
    ensures var out := HandleSnapshot(c, from, m, st); Orderly(out.core) && Safe(out.core, out.queue)
  {
    hide Safe, Recognise, AllSolid;
    if c.node.term <= m.term {
      var n, changed := Recognise(c.node, m.term, from), m.term > c.node.term;
      RecogniseKeeps(c.node, m.term, from);
      if st.success && st.done && m.index > n.base {
        SameTermAt(c.node, n, m.index);
        InstallSafe(c, from, m, st, n, changed, m.index <= LastIndex(n) && TermAt(n, m.index) == m.snapTerm);
      } else {
        var reply := SnapReply(n, from, m, st.success, st.nextOffset, st.success && st.done && m.index <= n.base);
        TwoSolid(ResetElectionTimer, reply);
        AfterTermSolid(c.(node := n), changed, [Emit(ResetElectionTimer), Emit(reply)]);
        SolidOutputSafe(AfterTerm(c.(node := n), changed, [Emit(ResetElectionTimer), Emit(reply)]));
      }
    } else {
      var reply := SnapReply(c.node, from, m, false, m.offset, false);
      EmitOne(reply);
      QuietSolid(c, c.node, [reply]);
      SolidOutputSafe(Output(c.(node := c.node), [Emit(reply)]));
    }
  }

  lemma TwoSolid(a: Action, b: Action)
    ensures AllSolid([Emit(a), Emit(b)])
  {
  }

  lemma SameTermAt(n: Node, n': Node, index: nat)
    requires n'.log == n.log && n'.base == n.base && index != n.base
    ensures TermAt(n', index) == TermAt(n, index)
  {
  }

  // ------------------------------------------------------------------- the runtime

  /** What the messages of this protocol satisfy: new entries continue the log,
      and Snapshots keep what is committed. */
  predicate Admissible(n: Node, ev: Event) {
    && Fits(n, ev)
    && (ev.ReceiveSnapshot? ==> KeepsCommitted(n, ev.msg, ev.staged))
  }

  lemma StepSafe(c: Core, ev: Event)
    requires Idle(c) && c.node.base <= c.node.commit && Admissible(c.node, ev) && !ev.SnapshotCompacted?
    ensures var out := Handle(c, ev); Orderly(out.core) && Safe(out.core, out.queue)
  {
    hide Safe;
    if ev.ReceiveSnapshot? {
      hide HandleSnapshot;
      if ev.msg.SnapshotRequest? {
        SnapshotSafe(c, ev.from, ev.msg, ev.staged);
      } else {
        StepDownSolid(c, 0);
        SolidOutputSafe(Output(c, []));
      }
    } else {
      hide Handle;
      HandleSafe(c, ev);
    }
  }

  /** How far the loop has come: what it wrote and showed, and what is left. */
  ghost predicate Halfway(total: Drained, c: Core, queue: seq<CoreAction>, done: seq<Write>, shown: seq<Action>) {
    Orderly(c) && var left := Drain(c, queue); total == Drained(left.core, done + left.writes, shown + left.emitted)
  }

  lemma HalfwayStart(c: Core, queue: seq<CoreAction>)
    requires Orderly(c)
    ensures Halfway(Drain(c, queue), c, queue, [], [])
  {
    var left := Drain(c, queue);
    assert [] + left.writes == left.writes && [] + left.emitted == left.emitted;
  }

  lemma HalfwayShow(total: Drained, c: Core, queue: seq<CoreAction>, done: seq<Write>, shown: seq<Action>)
    requires Halfway(total, c, queue, done, shown) && queue != [] && queue[0].Emit?
    ensures Halfway(total, c, queue[1..], done, shown + [queue[0].action])
  {
    var left := Drain(c, queue[1..]);
    assert shown + ([queue[0].action] + left.emitted) == shown + [queue[0].action] + left.emitted;
  }

  lemma HalfwayWrite(total: Drained, c: Core, queue: seq<CoreAction>, done: seq<Write>, shown: seq<Action>)
    requires Halfway(total, c, queue, done, shown) && queue != [] && !queue[0].Emit?
    ensures var r := Complete(c, queue[0]);
            Halfway(total, r.core, queue[1..] + r.queue, done + WritesFor(queue[0]), shown)
    ensures var r := Complete(c, queue[0]);
            Orderly(r.core) && Drain(c, queue).writes == WritesFor(queue[0]) + Drain(r.core, queue[1..] + r.queue).writes
  {
    hide Complete, WritesFor;
    var r := Complete(c, queue[0]);
    CompletionsEnd(c, queue[0]);
    var left := Drain(r.core, queue[1..] + r.queue);
    assert done + (WritesFor(queue[0]) + left.writes) == done + WritesFor(queue[0]) + left.writes;
  }

  lemma HalfwayEnd(total: Drained, c: Core, done: seq<Write>, shown: seq<Action>)
    requires Halfway(total, c, [], done, shown)
    ensures total == Drained(c, done, shown)
  {
    assert done + [] == done && shown + [] == shown;
  }

  lemma SafeFirst(c: Core, queue: seq<CoreAction>)
    requires Orderly(c) && Safe(c, queue) && queue != []
    ensures queue[0].Emit? ==> Safe(c, queue[1..])
    ensures !queue[0].Emit? ==>
              var r := Complete(c, queue[0]);
              && Solid(queue[0]) && (queue[0].PersistSnapshot? ==> SnapshotReady(c, queue[0].id))
              && Orderly(r.core) && Safe(r.core, queue[1..] + r.queue)
  {
    CompletionsEnd(c, queue[0]);
  }

  /** The loop of raftRuntime.step over the actions one event produced. */
  method DrainAll(core: RaftCore, wal: WalStore.Wal, queue: seq<CoreAction>) returns (ok: bool, emitted: seq<Action>)
    requires core.Valid() && wal.Valid() && Orderly(core.Value()) && Safe(core.Value(), queue)
    modifies core, wal
    ensures core.Valid() && wal.Valid()
    ensures var total := Drain(old(core.Value()), queue);
            && (Accepted(old(wal.live), total.writes) ==> ok)
            && (ok ==> total == Drained(core.Value(), total.writes, emitted) && wal.live == ApplyWrites(old(wal.live), total.writes)
                       && Extended(wal, total.writes))
            && (!ok ==> emitted == [])
  {
    hide Drain, Safe, Halfway, Complete, WritesFor, Accepted, ApplyWrites, Orderly, WalStore.Wal.Valid, RaftCore.Valid;
    ghost var live0, history0 := wal.live, wal.history;
    assert history0 + [] == history0;
    ghost var total, done: seq<Write> := Drain(core.Value(), queue), [];
    var pending := queue;
    emitted := [];
    HalfwayStart(core.Value(), pending);
    NoWrites(live0);
    while pending != []
      invariant core.Valid() && wal.Valid() && Orderly(core.Value()) && Safe(core.Value(), pending)
      invariant Halfway(total, core.Value(), pending, done, emitted)
      invariant wal.live == ApplyWrites(live0, done) && wal.origin == old(wal.origin) && wal.past == old(wal.past) && wal.history == history0 + done
      invariant Accepted(live0, total.writes) ==> Accepted(wal.live, Drain(core.Value(), pending).writes)
      decreases |core.pendingHardState.Keys|, |core.pendingLog.Keys| + |core.pendingSnapshot.Keys|, |core.pendingCommit.Keys|, |pending|
    {
      var action := pending[0];
      SafeFirst(core.Value(), pending);
      if action.Emit? {
        HalfwayShow(total, core.Value(), pending, done, emitted);
        ShownWrites(core.Value(), pending);
        emitted := emitted + [action.action];
        pending := pending[1..];
      } else {
        ghost var before := core.Value();
        HalfwayWrite(total, before, pending, done, emitted);
        CompletionsEnd(before, action);
        ghost var next := Complete(before, action);
        ok := Persist(wal, action, Drain(next.core, pending[1..] + next.queue).writes);
        if !ok { return false, []; }
        WritesConcat(live0, done, WritesFor(action));
        assert history0 + done + WritesFor(action) == history0 + (done + WritesFor(action));
        done := done + WritesFor(action);
        var more := core.Completed(action);
        pending := pending[1..] + more;
      }
    }
    HalfwayEnd(total, core.Value(), done, emitted);
    ok := true;
  }

  lemma NoWrites(d: Durable)
    ensures ApplyWrites(d, []) == d
  {
  }

  /** The owner of one core and its WAL. Between steps nothing is outstanding
      and, from the core's Snapshot on, the WAL holds exactly what the core takes
      for durable. The core may start at a later Snapshot than the WAL: recovery
      takes the newest file that fits (Recovery.Open). */
  class RaftRuntime {
    const core: RaftCore
    const wal: WalStore.Wal

    ghost predicate Valid()
      reads this, core, wal
    {
      core.Valid() && wal.Valid() && Idle(core.Value()) && Agrees(wal.live, core.node)
    }

    constructor (core: RaftCore, wal: WalStore.Wal)
      requires core.Valid() && wal.Valid() && Idle(core.Value()) && Agrees(wal.live, core.node)
      ensures Valid() && this.core == core && this.wal == wal
    {
      this.core, this.wal := core, wal;
    }

    /** Between steps, or, once the WAL has been compacted, just before the core is
        told of it. */
    ghost predicate ReadyFor(ev: Event)
      reads this, core, wal
    {
      && core.Valid() && wal.Valid() && Idle(core.Value()) && Admissible(core.node, ev)
      && Agrees(wal.live, if ev.SnapshotCompacted? then OnCompacted(core.node, ev.index, ev.snapTerm).node else core.node)
    }

    /** What a step has to write: a finished compaction is in the WAL already. */
    static function WritesLeft(n: Node, ev: Event): seq<Write> {
      if ev.SnapshotCompacted? then [] else Spec.Step(n, ev).writes
    }

    /** Run one event to the end. The step succeeds unless the WAL refuses a
        write; then the core has taken the whole step and is idle, the WAL agrees
        with it and has exactly the step's writes more on record, and only then
        are the effects handed out. */
    method Step(ev: Event) returns (ok: bool, emitted: seq<Action>)
      requires ReadyFor(ev)
      modifies core, wal
      ensures var r, ws := Spec.Step(old(core.node), ev), WritesLeft(old(core.node), ev);
              && (Accepted(old(wal.live), ws) ==> ok)
              && (ok ==> Valid() && core.node == r.node && emitted == r.actions && Extended(wal, ws))
              && (!ok ==> emitted == [])
    {
      hide Drain, Safe, Realises, Handle, Spec.Step, Accepted, Fits, ApplyWrites, Orderly, Idle;
      ghost var c0 := core.Value();
      if ev.SnapshotCompacted? {
        CompactionStep(c0.node, ev);
        CompactedRefined(c0, ev.index, ev.snapTerm);
        IdleIsDurable(c0);
        assert wal.history + [] == wal.history;
        emitted := [];
        var none := core.Step(ev);
        ok := true;
      } else {
        StepRefined(c0, ev);
        StepSafe(c0, ev);
        ghost var live0 := wal.live;
        StepAgrees(live0, c0.node, ev);
        RealisedStep(Drain(Handle(c0, ev).core, Handle(c0, ev).queue), Spec.Step(c0.node, ev));
        var queue := core.Step(ev);
        ok, emitted := DrainAll(core, wal, queue);
      }
    }

    /** Install a Snapshot captured at the last applied index: compact the WAL,
        then tell the core, after which both start at that Snapshot. Capture,
        compaction and notice are taken as one step here. */
    method Compact() returns (compacted: bool)
      requires Valid()
      modifies core, wal
      ensures var n, k := old(core.node), old(core.node).lastApplied;
              && compacted == (0 < k)
              && (compacted ==> Valid() && core.node == OnCompacted(n, k, Spec.TermAt(n, k)).node && Extended(wal, [Checkpoint(k, Spec.TermAt(n, k), true)])
                                && wal.live == DurableOf(core.node))
              && (!compacted ==> Valid() && core.node == n && Extended(wal, []))
    {
      hide Idle, Spec.TermAt, OnCompacted, WalStore.Wal.Told, Spec.Step, Agrees, ApplyWrite, Live, RecordsOf;
      var n := core.node;
      var index, term := n.lastApplied, Spec.TermAt(n, n.lastApplied);
      assert wal.history + [] == wal.history;
      if index == 0 { return false; }
      BaseBelow(wal.live, n);
      compacted := wal.Compact(index, term);
      if compacted {
        CompactionAgrees(old(wal.live), n, index);
        AgreesSelf(OnCompacted(n, index, term).node);
        CompactionStep(n, SnapshotCompacted(index, term));
        NothingLeft(wal.live);
        LiveTold(wal);
        ghost var written := wal.history;
        assert written + [] == written;
        var stepped, emitted := Step(SnapshotCompacted(index, term));
        LiveTold(wal);
        compacted := stepped;
      }
    }
  }

  lemma LiveTold(wal: WalStore.Wal)
    requires wal.Valid()
    ensures wal.live == Live(wal.origin, wal.history)
  {
  }

  lemma BaseBelow(d: Durable, n: Node)
    requires Agrees(d, n)
    ensures d.base <= n.base && d.commit == n.commit
  {
  }

  lemma NothingLeft(d: Durable)
    ensures Accepted(d, [])
  {
  }

  lemma IdleIsDurable(c: Core)
    requires Idle(c)
    ensures c.durableLog == LastIndex(c.node)
  {
  }

  lemma CompactionStep(n: Node, ev: Event)
    requires ev.SnapshotCompacted?
    ensures Spec.Step(n, ev) == OnCompacted(n, ev.index, ev.snapTerm) && OnCompacted(n, ev.index, ev.snapTerm).actions == []
  {
  }

  /** When closing a runtime and opening its WAL again returns what agrees with
      the core: exactly when the newest checkpoint on record judges every earlier
      truncation correctly. `earlier` is what the WAL was opened with. */
  lemma ReopenIff(rt: RaftRuntime, earlier: seq<Write>)
    requires rt.Valid() && rt.wal.past == Records(BLANK, earlier) && rt.wal.origin == Live(BLANK, earlier)
    requires Accepted(BLANK, earlier + rt.wal.history)
    ensures var y := Recover(rt.wal.records); y.Ok? && Agrees(y.value, rt.core.node) <==> Replayable(earlier + rt.wal.history)
  {
    hide Idle, Replayable, Unreadable, Recover, Accepted;
    HistoryConcat(BLANK, earlier, rt.wal.history);
    RecoverCases(earlier + rt.wal.history);
    var y := Recover(rt.wal.records);
    if y.Ok? && Stuck(y.value, rt.wal.live) { StuckDisagrees(y.value, rt.wal.live, rt.core.node); }
  }

  lemma StuckDisagrees(x: Durable, d: Durable, n: Node)
    requires Stuck(x, d) && Agrees(d, n)
    ensures !Agrees(x, n)
  {
    assert n.base == d.base;
    assert x.log[0..] == x.log;
  }

  lemma ShownWrites(c: Core, queue: seq<CoreAction>)
    requires Orderly(c) && queue != [] && queue[0].Emit?
    ensures Drain(c, queue).writes == Drain(c, queue[1..]).writes
  {
  }

  lemma RealisedStep(d: Drained, r: StepResult)
    requires Realises(d, r)
    ensures d.core.node == r.node && d.writes == r.writes && d.emitted == r.actions && Idle(d.core)
  {
  }
}
