/** An idle core, given one event and drained, does exactly what Node.Step says
    and is idle again: same state, same writes in the same order, same effects
    in the same order. */
module Refinement {
  import opened Types
  import opened Messages
  import opened Node
  import opened Core
  import opened Draining
  import opened Durability

  predicate Refined(out: Output, r: StepResult) {
    Orderly(out.core) && Realises(Drain(out.core, out.queue), r)
  }

  lemma QuietRefined(c: Core, r: StepResult)
    requires Idle(c) && SameLog(c, r.node) && r.node.term == c.node.term && r.node.votedFor == c.node.votedFor && r.writes == []
    ensures Refined(Quiet(c, r), r)
  {
    DrainQuiet(c, r.node, r.actions);
  }

  lemma NothingRefined(c: Core)
    requires Idle(c)
    ensures Refined(Output(c, []), Unchanged(c.node))
  {
    assert Emits([]) == [];
    DrainShown(c, []);
  }

  lemma HardRefined(c: Core, n: Node, changed: bool, actions: seq<Action>)
    requires Idle(c) && SameLog(c, n) && (!changed ==> n.term == c.node.term && n.votedFor == c.node.votedFor)
    ensures Refined(AfterTerm(c.(node := n), changed, Emits(actions)), StepResult(n, HardStateIf(changed, n), actions))
  {
    DrainHardOnly(c, n, changed, actions);
  }

  // ------------------------------------------------------------------- elections

  lemma StepDownRefined(c: Core, term: nat)
    requires Idle(c)
    ensures Refined(StepDownTo(c, term), StepDown(c.node, term))
  {
    assert Emits([]) == [];
    HardRefined(c, BecomeFollower(c.node, term, ""), true, []);
  }

  lemma StandRefined(c: Core)
    requires Idle(c)
    ensures Refined(StandForElection(c), StartElection(c.node))
  {
    var r := StartElection(c.node);
    HardRefined(c, r.node, true, r.actions);
  }

  lemma PrefixRefined(c: Core, shown: seq<Action>, out: Output, r: StepResult)
    requires Refined(out, r)
    ensures Refined(Output(out.core, Emits(shown) + out.queue), r.(actions := shown + r.actions))
  {
    hide Emits, Drain;
    DrainEmits(out.core, shown, out.queue);
  }

  lemma TimeoutRefined(c: Core)
    requires Idle(c)
    ensures Refined(HandleElectionTimeout(c), OnElectionTimeout(c.node))
  {
    hide Drain, Idle, Refined, Broadcast;
    if c.node.role == Leader {
      NothingRefined(c);
    } else {
      var n := c.node.(recentContact := false, leaderId := "", role := PreCandidate, preVotes := {c.node.id});
      var asks := Broadcast(n.peers, PreVoteRequest(n.term + 1, LastIndex(n), LastTerm(n)));
      EmitOne(ResetElectionTimer);
      EmitsConcat([ResetElectionTimer], asks);
      StillIdle(c, n);
      if Quorum(n) == 1 {
        StandRefined(c.(node := n));
        PrefixRefined(c, [ResetElectionTimer] + asks, StandForElection(c.(node := n)), StartElection(n));
      } else {
        QuietRefined(c, StepResult(n, [], [ResetElectionTimer] + asks));
      }
    }
  }

  lemma StillIdle(c: Core, n: Node)
    requires Idle(c)
    ensures SameLog(c, n) && n.term == c.node.term && n.votedFor == c.node.votedFor ==> Idle(c.(node := n))
  {
  }

  lemma PreVoteReplyRefined(c: Core, from: NodeId, m: Message)
    requires Idle(c) && m.PreVoteReply?
    ensures Refined(HandlePreVoteReply(c, from, m), OnPreVoteReply(c.node, from, m))
  {
    hide Drain, Idle, Refined, StartElection, StandForElection, StepDownTo, StepDown;
    StepDownRefined(c, m.currentTerm);
    NothingRefined(c);
    var n := c.node.(preVotes := c.node.preVotes + {from});
    StillIdle(c, n);
    NothingRefined(c.(node := n));
    StandRefined(c.(node := n));
  }

  lemma VoteRequestRefined(c: Core, from: NodeId, m: Message)
    requires Idle(c) && m.VoteRequest?
    ensures Refined(HandleVoteRequest(c, from, m), OnVoteRequest(c.node, from, m))
  {
    hide Drain, Refined, Emits;
    var r := OnVoteRequest(c.node, from, m);
    EmitOne(r.actions[0]);
    if m.term < c.node.term {
      QuietRefined(c, r);
    } else {
      var n1 := if m.term > c.node.term then BecomeFollower(c.node, m.term, "") else c.node;
      var grant := (n1.votedFor == "" || n1.votedFor == from) && LogIsUpToDate(m.lastTerm, m.lastIndex, LastTerm(n1), LastIndex(n1));
      HardRefined(c, r.node, m.term > c.node.term || (grant && n1.votedFor != from), r.actions);
    }
  }

  lemma VoteReplyRefined(c: Core, from: NodeId, m: Message)
    requires Idle(c) && m.VoteReply?
    ensures Refined(HandleVoteReply(c, from, m), OnVoteReply(c.node, from, m))
  {
    hide Drain, Refined, Emits, SendAll, StepDownTo, StepDown;
    StepDownRefined(c, m.term);
    NothingRefined(c);
    var n1 := c.node.(votes := c.node.votes + {from});
    StillIdle(c, n1);
    NothingRefined(c.(node := n1));
    var noop := FirstEntry(n1);
    var n2 := n1.(role := Leader, leaderId := n1.id, activePeers := {}, matchIndex := map[],
                  inFlight := map[], snapInFlight := map[], readReady := false,
                  log := n1.log + [noop], nextIndex := InitialNext(n1.peers, LastIndex(n1) + 2));
    var shown := [BecameLeader(n1.term), ResetHeartbeatTimer, ResetCheckQuorumTimer];
    LeaderLogRefined(c, n2, noop, shown);
    ThreeEmits(BecameLeader(n1.term), ResetHeartbeatTimer, ResetCheckQuorumTimer);
  }

  lemma ThreeEmits(a: Action, b: Action, d: Action)
    ensures Emits([a, b, d]) == [Emit(a), Emit(b), Emit(d)]
  {
  }

  lemma LeaderLogRefined(c: Core, n: Node, e: Entry, shown: seq<Action>)
    requires Idle(c) && n.role == Leader && n.log == c.node.log + [e] && n.base == c.node.base && n.commit == c.node.commit
    requires n.term == c.node.term && n.votedFor == c.node.votedFor && e.index == LastIndex(n)
    ensures var ask := AskLog(c.(node := n), 0, [e], LeaderEntry(n.term, e.index));
            var sent := SendAll(n, n.peers, 0);
            Refined(Output(ask.core, Emits(shown) + ask.queue), StepResult(sent.node, [Append(e)], shown + sent.actions))
  {
    DrainLeaderLog(c, n, e, shown);
  }

  // ------------------------------------------------------- proposals, reads, timers

  lemma ProposeRefined(c: Core, proposalId: nat, e: Entry)
    requires Idle(c) && c.node.role == Leader && e.index == LastIndex(c.node) + 1
    ensures Refined(ProposeEntry(c, proposalId, e), Propose(c.node, proposalId, e))
  {
    hide Drain, Refined, Emits, SendAll;
    EmitOne(ProposalAccepted(proposalId, e.index));
    LeaderLogRefined(c, c.node.(log := c.node.log + [e]), e, [ProposalAccepted(proposalId, e.index)]);
  }

  lemma ProposalRefined(c: Core, ev: Event)
    requires Idle(c) && (ev.ProposeSession? || ev.ProposeSet? || ev.ProposeDelete?)
    ensures Refined(HandlePropose(c, ev), OnPropose(c.node, ev))
  {
    hide Drain, Refined, Emits, ProposeEntry, Propose;
    NothingRefined(c);
    if c.node.role != Leader {
      EmitOne(ProposalRejected(ev.proposalId, c.node.leaderId));
      QuietRefined(c, StepResult(c.node, [], [ProposalRejected(ev.proposalId, c.node.leaderId)]));
    } else {
      var index := LastIndex(c.node) + 1;
      match ev
      case ProposeSession(id, kind, session) => ProposeRefined(c, id, Entry(index, c.node.term, kind, session, 0, [], []));
      case ProposeSet(id, session, sequence, key, value) =>
        ProposeRefined(c, id, Entry(index, c.node.term, SetKey, session, sequence, key, value));
      case ProposeDelete(id, session, sequence, key) =>
        ProposeRefined(c, id, Entry(index, c.node.term, DeleteKey, session, sequence, key, []));
    }
  }

  lemma SendRefined(c: Core, n: Node, readId: nat, shown: seq<Action>)
    requires Idle(c) && SameLog(c, n) && n.term == c.node.term && n.votedFor == c.node.votedFor
    ensures var sent, out := SendAll(n, n.peers, readId), SendEach(c.(node := n), readId);
            Refined(Output(out.core, Emits(shown) + out.queue), StepResult(sent.node, [], shown + sent.actions))
  {
    hide Drain, Emits, SendAll;
    var sent := SendAll(n, n.peers, readId);
    SendEachDurable(c.(node := n), readId);
    SendAllVolatile(n, n.peers, readId);
    EmitsConcat(shown, sent.actions);
    QuietRefined(c, StepResult(sent.node, [], shown + sent.actions));
  }

  lemma HeartbeatRefined(c: Core)
    requires Idle(c)
    ensures Refined(HandleHeartbeat(c), OnHeartbeat(c.node))
  {
    hide Drain, Refined, Emits, SendAll, SendEach;
    NothingRefined(c);
    EmitOne(ResetHeartbeatTimer);
    SendRefined(c, c.node.(inFlight := map[]), 0, [ResetHeartbeatTimer]);
  }

  lemma ConfirmReadRefined(c: Core, readId: nat)
    requires Idle(c)
    ensures Refined(HandleConfirmRead(c, readId), OnConfirmRead(c.node, readId))
  {
    hide Drain, Refined, Emits, SendAll, SendEach;
    if c.node.role != Leader {
      EmitOne(ReadRejected(readId, c.node.leaderId));
      QuietRefined(c, StepResult(c.node, [], [ReadRejected(readId, c.node.leaderId)]));
    } else if !c.node.readReady {
      EmitOne(ReadRejected(readId, ""));
      QuietRefined(c, StepResult(c.node, [], [ReadRejected(readId, "")]));
    } else {
      var n := c.node.(waiting := c.node.waiting[readId := PendingRead({c.node.id}, 0, false)]);
      SendRefined(c, n, readId, []);
      NoEmits(SendEach(c.(node := n), readId).queue);
      var sent := SendAll(n, n.peers, readId);
      assert [] + sent.actions == sent.actions;
    }
  }

  lemma NoEmits(queue: seq<CoreAction>)
    ensures Emits([]) + queue == queue
  {
  }

  // ----------------------------------------------------------- Follower appends

  /** The inner part of an append, once a new Term is durable. */
  lemma InnerRefined(c: Core, changed: bool, after: seq<CoreAction>, inner: StepResult)
    requires Orderly(c) && c.hard == map[] && (!changed ==> c.durableTerm == c.node.term && c.durableVotedFor == c.node.votedFor)
    requires var c' := c.(nextHard := if changed then c.nextHard + 1 else c.nextHard, durableTerm := c.node.term, durableVotedFor := c.node.votedFor);
             Refined(Output(c', after), inner)
    ensures Refined(AfterTerm(c, changed, after), inner.(writes := HardStateIf(changed, c.node) + inner.writes))
  {
    hide Drain;
    DrainAfterTerm(c, changed, after);
  }

  lemma RecogniseKeeps(n: Node, term: nat, from: NodeId)
    requires n.term <= term
    ensures var n' := Recognise(n, term, from);
            && n'.log == n.log && n'.base == n.base && n'.commit == n.commit && n'.lastApplied == n.lastApplied
            && n'.role == Follower && n'.leaderId == from && n'.term == term && (term == n.term ==> n'.votedFor == n.votedFor)
  {
  }

  /** Everything already present: acknowledge and advance. */
  lemma NothingNewRefined(c: Core, n: Node, changed: bool, from: NodeId, m: Message)
    requires Idle(c) && SameLog(c, n) && (!changed ==> n.term == c.node.term && n.votedFor == c.node.votedFor) && m.AppendRequest?
    ensures var done := AdvanceFollower(c.(node := n), m.leaderCommit, Emit(Reply(n, from, m.requestId, true, Hint(0, 0), m.readId)));
            Refined(AfterTerm(done.core, changed, [Emit(ResetElectionTimer)] + done.queue), FinishAppend(n, HardStateIf(changed, n), from, m))
  {
    hide Drain, Emits, ApplyThrough;
    var reply := Reply(n, from, m.requestId, true, Hint(0, 0), m.readId);
    var c' := c.(node := n, nextHard := if changed then c.nextHard + 1 else c.nextHard, durableTerm := n.term, durableVotedFor := n.votedFor);
    EmitOne(ResetElectionTimer);
    DrainAdvance(c', m.leaderCommit, reply, [ResetElectionTimer]);
    AdvanceVolatile(c.(node := n), m.leaderCommit, Emit(reply));
    var done := AdvanceFollower(c.(node := n), m.leaderCommit, Emit(reply));
    var inner := AdvanceFollower(c', m.leaderCommit, Emit(reply));
    var target := Min(m.leaderCommit, LastIndex(n));
    var n1 := if target > n.commit then n.(commit := target) else n;
    var applied := ApplyThrough(n1, n1.commit);
    var save := if target > n.commit then [SaveCommit(target)] else [];
    InnerRefined(done.core, changed, [Emit(ResetElectionTimer)] + done.queue, StepResult(applied.node, save, [ResetElectionTimer] + applied.actions + [reply]));
  }

  lemma AdvanceVolatile(c: Core, leaderCommit: nat, reply: CoreAction)
    requires Durably(c.(durableTerm := c.node.term, durableVotedFor := c.node.votedFor), c.node)
    ensures var out := AdvanceFollower(c, leaderCommit, reply);
            && Orderly(out.core) && out.core.hard == map[]
            && out.core.node.term == c.node.term && out.core.node.votedFor == c.node.votedFor
            && out.core.durableTerm == c.durableTerm && out.core.durableVotedFor == c.durableVotedFor && out.core.nextHard == c.nextHard
  {
    hide ApplyThrough, Emits;
    ApplyThroughVolatile(c.node, c.durableCommit);
  }

  /** Written entries are acknowledged and the commit index advances. */
  lemma StoredThen(settled: Core, ready: Core, id: nat, truncateFrom: nat, tail: seq<Entry>, from: NodeId, m: Message)
    requires m.AppendRequest? && Idle(settled)
    requires var n := settled.node; n.role == Follower && n.leaderId == from && n.term == m.term
    requires ready == settled.(durableLog := ready.durableLog, logs := map[id := FollowerAppend(m.term, from, m.requestId, LastIndex(settled.node), m.leaderCommit, m.readId)])
    requires ready.durableLog <= LastIndex(settled.node)
    ensures Refined(Output(ready, [Emit(ResetElectionTimer)] + [PersistLog(id, truncateFrom, tail)]),
                    FinishAppend(settled.node, StoreWrites(truncateFrom, tail), from, m))
  {
    hide Drain, Emits, ApplyThrough, StoreWrites, AdvanceFollower;
    var n := settled.node;
    var reply := Reply(n, from, m.requestId, true, Hint(0, 0), m.readId);
    assert ready.logs - {id} == map[];
    assert LogPersisted(ready, id) == AdvanceFollower(settled, m.leaderCommit, Emit(reply));
    var out := AdvanceFollower(settled, m.leaderCommit, Emit(reply));
    DrainAdvance(settled, m.leaderCommit, reply, []);
    NoEmits(out.queue);
    var ask := PersistLog(id, truncateFrom, tail);
    DrainOne(ready, ask, []);
    assert [ask] == [ask] + [] && [] + out.queue == out.queue;
    EmitOne(ResetElectionTimer);
    DrainEmits(ready, [ResetElectionTimer], [ask]);
    var target := Min(m.leaderCommit, LastIndex(n));
    var n1 := if target > n.commit then n.(commit := target) else n;
    var applied := ApplyThrough(n1, n1.commit);
    assert [ResetElectionTimer] + ([] + applied.actions + [reply]) == [ResetElectionTimer] + applied.actions + [reply];
  }

  /** New entries: write them, then acknowledge and advance. */
  lemma StoreRefined(c: Core, n: Node, changed: bool, from: NodeId, m: Message, truncateFrom: nat, tail: seq<Entry>)
    requires Idle(c) && SameLog(c, n) && (!changed ==> n.term == c.node.term && n.votedFor == c.node.votedFor) && m.AppendRequest?
    requires n.role == Follower && n.leaderId == from && n.term == m.term
    requires tail != [] && (truncateFrom == 0 || n.base < truncateFrom <= LastIndex(n))
    ensures var n' := StoreEntries(n, truncateFrom, tail);
            var c2 := c.(node := n', durableLog := if truncateFrom != 0 then Min(c.durableLog, truncateFrom - 1) else c.durableLog);
            var ask := AskLog(c2, truncateFrom, tail, FollowerAppend(m.term, from, m.requestId, LastIndex(n'), m.leaderCommit, m.readId));
            Refined(AfterTerm(ask.core, changed, [Emit(ResetElectionTimer)] + ask.queue),
                    FinishAppend(n', HardStateIf(changed, n) + StoreWrites(truncateFrom, tail), from, m))
  {
    hide Drain, Refined, StoreWrites, StoreEntries, FinishAppend;
    StoredPositions(n, truncateFrom, tail);
    var n' := StoreEntries(n, truncateFrom, tail);
    var c2 := c.(node := n', durableLog := if truncateFrom != 0 then Min(c.durableLog, truncateFrom - 1) else c.durableLog);
    var ask := AskLog(c2, truncateFrom, tail, FollowerAppend(m.term, from, m.requestId, LastIndex(n'), m.leaderCommit, m.readId));
    var id := c.nextLog + 1;
    var ready := ask.core.(nextHard := if changed then c.nextHard + 1 else c.nextHard, durableTerm := n'.term, durableVotedFor := n'.votedFor);
    var settled := ready.(logs := map[], durableLog := LastIndex(n'));
    StoredThen(settled, ready, id, truncateFrom, tail, from, m);
    InnerRefined(ask.core, changed, [Emit(ResetElectionTimer)] + ask.queue, FinishAppend(n', StoreWrites(truncateFrom, tail), from, m));
    FinishWrites(n', HardStateIf(changed, n), StoreWrites(truncateFrom, tail), from, m);
    assert HardStateIf(changed, n') == HardStateIf(changed, n);
  }

  lemma FinishWrites(n: Node, hs: seq<Write>, writes: seq<Write>, from: NodeId, m: Message)
    requires m.AppendRequest?
    ensures var r := FinishAppend(n, writes, from, m);
            r.(writes := hs + r.writes) == FinishAppend(n, hs + writes, from, m)
  {
    hide ApplyThrough;
  }

  lemma StoredPositions(n: Node, truncateFrom: nat, tail: seq<Entry>)
    requires truncateFrom == 0 || n.base < truncateFrom <= LastIndex(n)
    ensures var n' := StoreEntries(n, truncateFrom, tail);
            && n'.term == n.term && n'.votedFor == n.votedFor && n'.role == n.role && n'.leaderId == n.leaderId && n'.commit == n.commit
            && LastIndex(n') == (if truncateFrom == 0 then LastIndex(n) else truncateFrom - 1) + |tail|
  {
  }

  lemma {:induction false} PlanStores(n: Node, want: nat, entries: seq<Entry>)
    requires n.base <= n.commit
    ensures var plan := PlanAppend(n, want, entries);
            plan.Store? ==> plan.tail != [] && (plan.truncateFrom == 0 || n.base < plan.truncateFrom <= LastIndex(n))
    decreases |entries|
  {
    if entries != [] && entries[0].index == want && want <= LastIndex(n) && TermAt(n, want) == entries[0].term {
      PlanStores(n, want + 1, entries[1..]);
    }
  }

  lemma AppendRefined(c: Core, from: NodeId, m: Message)
    requires Idle(c) && c.node.base <= c.node.commit && m.AppendRequest?
    ensures Refined(HandleAppend(c, from, m), OnAppendRequest(c.node, from, m))
  {
    hide Drain, Refined, Emits, Recognise, StoreEntries, StoreWrites, PlanAppend, Matches, ConflictHint, FinishAppend, AdvanceFollower, HardStateIf;
    if m.term < c.node.term {
      var reply := Reply(c.node, from, m.requestId, false, Hint(0, 0), m.readId);
      EmitOne(reply);
      QuietRefined(c, StepResult(c.node, [], [reply]));
    } else {
      var n, changed := Recognise(c.node, m.term, from), m.term > c.node.term;
      RecogniseKeeps(c.node, m.term, from);
      PlanStores(n, m.prevIndex + 1, m.entries);
      var plan := PlanAppend(n, m.prevIndex + 1, m.entries);
      if !Matches(n, m.prevIndex, m.prevTerm) {
        RejectedRefined(c, n, changed, Reply(n, from, m.requestId, false, ConflictHint(n, m.prevIndex), m.readId));
      } else if plan.Refuse? {
        RejectedRefined(c, n, changed, Reply(n, from, m.requestId, false, ConflictHint(n, m.prevIndex + 1), m.readId));
      } else if plan.Nothing? {
        NothingNewRefined(c, n, changed, from, m);
      } else {
        StoreRefined(c, n, changed, from, m, plan.truncateFrom, plan.tail);
      }
    }
  }

  lemma RejectedRefined(c: Core, n: Node, changed: bool, reply: Action)
    requires Idle(c) && SameLog(c, n) && (!changed ==> n.term == c.node.term && n.votedFor == c.node.votedFor)
    ensures Refined(AfterTerm(c.(node := n), changed, [Emit(ResetElectionTimer), Emit(reply)]),
                    StepResult(n, HardStateIf(changed, n), [ResetElectionTimer, reply]))
  {
    assert Emits([ResetElectionTimer, reply]) == [Emit(ResetElectionTimer), Emit(reply)];
    HardRefined(c, n, changed, [ResetElectionTimer, reply]);
  }

  // --------------------------------------------------------------- Leader replies

  lemma CommittingRefined(c: Core, n: Node, from: NodeId, readId: nat, index: nat)
    requires Idle(c) && SameLog(c, n) && n.term == c.node.term && n.votedFor == c.node.votedFor && n.commit < index
    ensures var sent := SendEach(c.(node := n.(commit := index)), 0);
            var first := AskCommit(sent.core, sent.queue);
            var read := AckRead(first.core.node, from, readId);
            var sentAll := SendAll(n.(commit := index), n.peers, 0);
            var readAll := AckRead(sentAll.node, from, readId);
            var applied := ApplyThrough(readAll.node, index);
            Refined(Output(first.core.(node := read.node), first.queue + Emits(read.actions)),
                    StepResult(applied.node, [SaveCommit(index)], readAll.actions + applied.actions + sentAll.actions))
  {
    hide Drain, Emits, SendAll, AckRead, ApplyThrough;
    var n1 := n.(commit := index);
    SendEachDurable(c.(node := n1), 0);
    SendAllVolatile(n1, n1.peers, 0);
    var sentAll := SendAll(n1, n1.peers, 0);
    var first := AskCommit(c.(node := sentAll.node), Emits(sentAll.actions));
    AckReadVolatile(sentAll.node, from, readId);
    var read := AckRead(sentAll.node, from, readId);
    ApplyThroughVolatile(read.node, index);
    var applied := ApplyThrough(read.node, index);
    var id := c.nextCommit + 1;
    var before := first.core.(node := read.node);
    DrainOne(before, first.queue[0], Emits(read.actions));
    assert before.commits - {id} == map[];
    var c' := c.(nextCommit := id, node := applied.node, durableCommit := index);
    assert CommitPersisted(before, id) == Output(c', Emits(applied.actions) + Emits(sentAll.actions));
    EmitsConcat(applied.actions, sentAll.actions);
    EmitsConcat(read.actions, applied.actions + sentAll.actions);
    DrainShown(c', read.actions + (applied.actions + sentAll.actions));
    assert read.actions + (applied.actions + sentAll.actions) == read.actions + applied.actions + sentAll.actions;
    assert first.queue == [first.queue[0]];
    assert [SaveCommit(index)] + [] == [SaveCommit(index)];
  }

  lemma PlainRefined(c: Core, n: Node, from: NodeId, readId: nat, send: bool)
    requires Idle(c) && SameLog(c, n) && n.term == c.node.term && n.votedFor == c.node.votedFor
    ensures var carried := PendingReadFor(n, from);
            var first := if send then SendOne(c.(node := n), from, carried) else Output(c.(node := n), []);
            var read := AckRead(first.core.node, from, readId);
            var sent := if send then SendTo(n, from, carried) else Effect(n, []);
            var acked := AckRead(sent.node, from, readId);
            Refined(Output(first.core.(node := read.node), first.queue + Emits(read.actions)), StepResult(acked.node, [], sent.actions + acked.actions))
  {
    hide Drain, Emits, SendTo, AckRead, PendingReadFor;
    var carried := PendingReadFor(n, from);
    SendOneDurable(c.(node := n), from, carried);
    SendToVolatile(n, from, carried);
    var sent := if send then SendTo(n, from, carried) else Effect(n, []);
    AckReadVolatile(sent.node, from, readId);
    var acked := AckRead(sent.node, from, readId);
    assert Emits([]) == [] by { NoEmits([]); }
    EmitsConcat(sent.actions, acked.actions);
    QuietRefined(c, StepResult(acked.node, [], sent.actions + acked.actions));
  }

  lemma NoteReplyKeeps(n: Node, from: NodeId, m: Message)
    requires m.AppendReply?
    ensures var n' := NoteReply(n, from, m); n'.log == n.log && n'.base == n.base && n'.commit == n.commit && n'.term == n.term && n'.votedFor == n.votedFor
  {
    hide NoteReply;
    NoteReplyVolatile(n, from, m);
  }

  lemma AppendReplyRefined(c: Core, from: NodeId, m: Message)
    requires Idle(c) && m.AppendReply?
    ensures Refined(HandleAppendReply(c, from, m), OnAppendReply(c.node, from, m))
  {
    hide Drain, Refined, Emits, SendTo, SendAll, SendOne, SendEach, AckRead, ApplyThrough, PendingReadFor, NoteReply, LeaderCommit, StepDownTo, StepDown;
    StepDownRefined(c, m.term);
    NothingRefined(c);
    var pending := Get(c.node.inFlight, from, InFlight(0, 0));
    var n1 := NoteReply(c.node, from, m);
    NoteReplyKeeps(c.node, from, m);
    var index := LeaderCommit(n1, LastIndex(n1));
    if index > n1.commit {
      CommittingRefined(c, n1, from, m.readId, index);
    } else {
      PlainRefined(c, n1, from, m.readId,
        !m.success || Get(n1.nextIndex, from, 0) <= LastIndex(n1) || PendingReadFor(n1, from) != 0 || pending.leaderCommit < n1.commit);
    }
  }

  // -------------------------------------------------------------------- Snapshots

  lemma InstallRefined(c: Core, n: Node, changed: bool, from: NodeId, m: Message, st: Staged, keep: bool)
    requires Idle(c) && SameLog(c, n) && (!changed ==> n.term == c.node.term && n.votedFor == c.node.votedFor) && m.SnapshotRequest?
    requires keep ==> n.base <= m.index <= LastIndex(n)
    ensures var ask := AskSnapshot(c.(node := n), from, m, st, keep);
            var n' := Install(n, m.index, m.snapTerm, keep);
            Refined(AfterTerm(ask.core, changed, [Emit(ResetElectionTimer)] + ask.queue),
                    StepResult(n', HardStateIf(changed, n) + [Checkpoint(m.index, m.snapTerm, keep)],
                               [ResetElectionTimer, RestoreSnapshot(m.index, m.snapTerm), SnapReply(n', from, m, st.success, st.nextOffset, true)]))
  {
    hide Drain, Emits;
    var ask := AskSnapshot(c.(node := n), from, m, st, keep);
    var n' := Install(n, m.index, m.snapTerm, keep);
    var reply := SnapReply(n', from, m, st.success, st.nextOffset, true);
    var ready := ask.core.(nextHard := if changed then c.nextHard + 1 else c.nextHard, durableTerm := n.term, durableVotedFor := n.votedFor);
    var id := c.nextSnapshot + 1;
    assert ready.snapshots - {id} == map[];
    var settled := ready.(snapshots := map[], node := n', durableCommit := n'.commit, durableLog := LastIndex(n'));
    InstallPositions(n, m.index, m.snapTerm, keep);
    assert SnapshotPersisted(ready, id) == Output(settled, [Emit(RestoreSnapshot(m.index, m.snapTerm)), Emit(reply)]);
    TwoEmits(RestoreSnapshot(m.index, m.snapTerm), reply);
    DrainShown(settled, [RestoreSnapshot(m.index, m.snapTerm), reply]);
    DrainOne(ready, ask.queue[0], []);
    assert ask.queue == [ask.queue[0]] + [];
    assert [] + [Emit(RestoreSnapshot(m.index, m.snapTerm)), Emit(reply)] == [Emit(RestoreSnapshot(m.index, m.snapTerm)), Emit(reply)];
    EmitOne(ResetElectionTimer);
    DrainEmits(ready, [ResetElectionTimer], ask.queue);
    assert [ResetElectionTimer] + [RestoreSnapshot(m.index, m.snapTerm), reply] == [ResetElectionTimer, RestoreSnapshot(m.index, m.snapTerm), reply];
    assert [Checkpoint(m.index, m.snapTerm, keep)] + [] == [Checkpoint(m.index, m.snapTerm, keep)];
    InnerRefined(ask.core, changed, [Emit(ResetElectionTimer)] + ask.queue,
      StepResult(n', [Checkpoint(m.index, m.snapTerm, keep)], [ResetElectionTimer, RestoreSnapshot(m.index, m.snapTerm), reply]));
  }

  lemma InstallPositions(n: Node, index: nat, term: nat, keep: bool)
    requires keep ==> n.base <= index <= LastIndex(n)
    ensures var n' := Install(n, index, term, keep);
            && n'.term == n.term && n'.votedFor == n.votedFor && n'.commit == Max(n.commit, index)
            && LastIndex(n') == if keep && n'.log == [] then LastIndex(n) else LastIndex(n')
  {
  }

  lemma SnapshotRefined(c: Core, from: NodeId, m: Message, st: Staged)
    requires Idle(c) && m.SnapshotRequest?
    ensures Refined(HandleSnapshot(c, from, m, st), OnSnapshotRequest(c.node, from, m, st))
  {
    hide Drain, Refined, Emits, Recognise, Install, HardStateIf, TermAt;
    if m.term < c.node.term {
      var reply := SnapReply(c.node, from, m, false, m.offset, false);
      EmitOne(reply);
      QuietRefined(c, StepResult(c.node, [], [reply]));
    } else {
      var n, changed := Recognise(c.node, m.term, from), m.term > c.node.term;
      RecogniseKeeps(c.node, m.term, from);
      if st.success && st.done && m.index > n.base {
        InstallRefined(c, n, changed, from, m, st, m.index <= LastIndex(n) && TermAt(n, m.index) == m.snapTerm);
      } else {
        RejectedRefined(c, n, changed, SnapReply(n, from, m, st.success, st.nextOffset, st.success && st.done && m.index <= n.base));
      }
    }
  }

  lemma SnapshotReplyRefined(c: Core, from: NodeId, m: Message)
    requires Idle(c) && m.SnapshotReply?
    ensures Refined(HandleSnapshotReply(c, from, m), OnSnapshotReply(c.node, from, m))
  {
    hide Drain, Refined, Emits, SendTo, SendOne, PendingReadFor, StepDownTo, StepDown;
    var n := c.node;
    StepDownRefined(c, m.term);
    NothingRefined(c);
    if m.term <= n.term && n.role == Leader && m.term == n.term && Get(n.snapInFlight, from, 0) == m.requestId {
      if !m.success {
        var n1 := n.(snapInFlight := n.snapInFlight - {from});
        StillIdle(c, n1);
        NothingRefined(c.(node := n1));
      } else if !m.done {
        var more := Send(from, SnapshotRequest(n.term, m.requestId, n.base, n.baseTerm, m.nextOffset));
        EmitOne(more);
        QuietRefined(c, StepResult(n, [], [more]));
      } else {
        var n1 := n.(snapInFlight := n.snapInFlight - {from},
                     matchIndex := n.matchIndex[from := Max(Get(n.matchIndex, from, 0), m.index)],
                     nextIndex := n.nextIndex[from := m.index + 1]);
        var sent := SendTo(n1, from, PendingReadFor(n1, from));
        SendOneDurable(c.(node := n1), from, PendingReadFor(n1, from));
        SendToVolatile(n1, from, PendingReadFor(n1, from));
        QuietRefined(c, StepResult(sent.node, [], sent.actions));
      }
    }
  }

  // ------------------------------------------------------------------ whole steps

  lemma MessageRefined(c: Core, from: NodeId, m: Message)
    requires Idle(c) && c.node.base <= c.node.commit
    ensures Refined(HandleMessage(c, from, m), OnReceive(c.node, from, m))
  {
    hide Drain, Refined, HandlePreVoteReply, HandleVoteRequest, HandleVoteReply, HandleAppend, HandleAppendReply, HandleSnapshotReply;
    hide OnPreVoteReply, OnVoteRequest, OnVoteReply, OnAppendRequest, OnAppendReply, OnSnapshotReply;
    match m
    case PreVoteRequest(_, _, _) => QuietRefined(c, OnPreVoteRequest(c.node, from, m));
    case PreVoteReply(_, _, _) => PreVoteReplyRefined(c, from, m);
    case VoteRequest(_, _, _) => VoteRequestRefined(c, from, m);
    case VoteReply(_, _) => VoteReplyRefined(c, from, m);
    case AppendRequest(_, _, _, _, _, _, _) => AppendRefined(c, from, m);
    case AppendReply(_, _, _, _, _, _, _) => AppendReplyRefined(c, from, m);
    case SnapshotReply(_, _, _, _, _, _) => SnapshotReplyRefined(c, from, m);
    case SnapshotRequest(_, _, _, _, _) => NothingRefined(c);
  }

  /** One drained runtime step is one Node.Step. A compaction's checkpoint is
      written by the compaction itself, before the core hears of it. */
  lemma StepRefined(c: Core, ev: Event)
    requires Idle(c) && c.node.base <= c.node.commit && !ev.SnapshotCompacted?
    ensures Refined(Handle(c, ev), Step(c.node, ev))
  {
    hide Drain, Refined, HandleElectionTimeout, HandleHeartbeat, HandlePropose, HandleConfirmRead, HandleMessage, HandleSnapshot;
    hide OnElectionTimeout, OnHeartbeat, OnPropose, OnConfirmRead, OnReceive, OnSnapshotRequest, ApplyThrough;
    match ev
    case ElectionTimeout => TimeoutRefined(c);
    case HeartbeatTimeout => HeartbeatRefined(c);
    case CheckQuorumTimeout => CheckQuorumRefined(c);
    case RecoverCommitted =>
      var applied := ApplyThrough(c.node, c.node.commit);
      ApplyThroughVolatile(c.node, c.node.commit);
      QuietRefined(c, StepResult(applied.node, [], applied.actions));
    case ProposeSession(_, _, _) => ProposalRefined(c, ev);
    case ProposeSet(_, _, _, _, _) => ProposalRefined(c, ev);
    case ProposeDelete(_, _, _, _) => ProposalRefined(c, ev);
    case ConfirmRead(id) => ConfirmReadRefined(c, id);
    case AppendFailed(to, id) => AppendFailedRefined(c, to, id);
    case Receive(from, m) => MessageRefined(c, from, m);
    case ReceiveSnapshot(from, m, st) =>
      NothingRefined(c);
      if m.SnapshotRequest? { SnapshotRefined(c, from, m, st); }
  }

  lemma CheckQuorumRefined(c: Core)
    requires Idle(c)
    ensures Refined(Quiet(c, OnCheckQuorum(c.node)), OnCheckQuorum(c.node))
  {
    hide Drain, Refined;
    QuietRefined(c, OnCheckQuorum(c.node));
  }

  lemma AppendFailedRefined(c: Core, to: NodeId, id: nat)
    requires Idle(c)
    ensures Refined(Quiet(c, OnAppendFailed(c.node, to, id)), OnAppendFailed(c.node, to, id))
  {
    hide Drain, Refined;
    QuietRefined(c, OnAppendFailed(c.node, to, id));
  }

  /** Telling the core of a compaction leaves it idle, on the compacted log. */
  lemma CompactedRefined(c: Core, index: nat, term: nat)
    requires Idle(c)
    ensures var out, r := Handle(c, SnapshotCompacted(index, term)), OnCompacted(c.node, index, term);
            Idle(out.core) && out.core.node == r.node && out.queue == []
  {
  }
}
