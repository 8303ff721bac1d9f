/** The drain loop of internal/node/raft_runtime.go on values: every persistence
    action is written and completed before the next action is looked at, and
    effects are shown in the order they are reached. */
module Draining {
  import opened Types
  import opened Messages
  import opened Node
  import opened Core
  import opened Durability
  import opened Machines

  datatype Drained = Drained(core: Core, writes: seq<Write>, emitted: seq<Action>)

  predicate Orderly(c: Core) {
    forall id :: id in c.snapshots ==> c.snapshots[id].request.SnapshotRequest?
  }

  /** What a persistence action writes. */
  function WritesFor(a: CoreAction): seq<Write> {
    match a
    case PersistHardState(_, term, votedFor) => [SaveHardState(term, votedFor)]
    case PersistLog(_, truncateFrom, entries) => StoreWrites(truncateFrom, entries)
    case PersistCommit(_, index) => [SaveCommit(index)]
    case PersistSnapshot(_, index, snapTerm, keep) => [Checkpoint(index, snapTerm, keep)]
    case Emit(_) => []
  }

  /** What the core does once that is written. */
  function Complete(c: Core, a: CoreAction): Output
    requires Orderly(c)
  {
    match a
    case PersistHardState(id, _, _) => HardPersisted(c, id)
    case PersistLog(id, _, _) => LogPersisted(c, id)
    case PersistCommit(id, _) => CommitPersisted(c, id)
    case PersistSnapshot(id, _, _, _) => SnapshotPersisted(c, id)
    case Emit(_) => Output(c, [])
  }

  predicate Less(c: Core, d: Core) {
    || |c.hard.Keys| < |d.hard.Keys|
    || (|c.hard.Keys| == |d.hard.Keys| && |c.logs.Keys| + |c.snapshots.Keys| < |d.logs.Keys| + |d.snapshots.Keys|)
    || (|c.hard.Keys| == |d.hard.Keys| && |c.logs.Keys| + |c.snapshots.Keys| == |d.logs.Keys| + |d.snapshots.Keys|
        && |c.commits.Keys| < |d.commits.Keys|)
  }

  lemma KeysShrink<T>(m: map<nat, T>, id: nat)
    requires id in m
    ensures |(m - {id}).Keys| == |m.Keys| - 1
  {
    assert (m - {id}).Keys == m.Keys - {id};
  }

  lemma HardEnds(c: Core, id: nat)
    requires Orderly(c)
    ensures var r := HardPersisted(c, id); Orderly(r.core) && (Less(r.core, c) || r == Output(c, []))
  {
    if id in c.hard { KeysShrink(c.hard, id); }
  }

  lemma SendsKeep(c: Core, readId: nat)
    ensures var d := SendEach(c, readId).core;
            d.hard == c.hard && d.logs == c.logs && d.snapshots == c.snapshots && d.commits == c.commits
  {
    hide SendAll, DurablePart;
  }

  lemma LogEnds(c: Core, id: nat)
    requires Orderly(c)
    ensures var r := LogPersisted(c, id); Orderly(r.core) && (Less(r.core, c) || r == Output(c, []))
  {
    hide SendEach, ApplyThrough, Emits;
    if id in c.logs {
      var p := c.logs[id];
      KeysShrink(c.logs, id);
      var c' := c.(logs := c.logs - {id}, durableLog := Max(c.durableLog, p.lastIndex));
      SendsKeep(c', 0);
    }
  }

  lemma CommitEnds(c: Core, id: nat)
    requires Orderly(c)
    ensures var r := CommitPersisted(c, id); Orderly(r.core) && (Less(r.core, c) || r == Output(c, []))
  {
    hide ApplyThrough, Emits;
    if id in c.commits { KeysShrink(c.commits, id); }
  }

  lemma SnapshotEnds(c: Core, id: nat)
    requires Orderly(c)
    ensures var r := SnapshotPersisted(c, id); Orderly(r.core) && (Less(r.core, c) || r == Output(c, []))
  {
    hide Install;
    if id in c.snapshots { KeysShrink(c.snapshots, id); }
  }

  /** Hard states first, then the log or a Snapshot, then the commit index: each
      completion leaves less outstanding, or had nothing to complete. */
  lemma CompletionsEnd(c: Core, a: CoreAction)
    requires Orderly(c)
    ensures var r := Complete(c, a); Orderly(r.core) && (Less(r.core, c) || r == Output(c, []))
  {
    hide Less, Orderly, HardPersisted, LogPersisted, CommitPersisted, SnapshotPersisted;
    match a
    case PersistHardState(id, _, _) => HardEnds(c, id);
    case PersistLog(id, _, _) => LogEnds(c, id);
    case PersistCommit(id, _) => CommitEnds(c, id);
    case PersistSnapshot(id, _, _, _) => SnapshotEnds(c, id);
    case Emit(_) =>
  }

  /** The loop of raftRuntime.step. */
  function Drain(c: Core, queue: seq<CoreAction>): Drained
    requires Orderly(c)
    decreases |c.hard.Keys|, |c.logs.Keys| + |c.snapshots.Keys|, |c.commits.Keys|, |queue|
  {
    if queue == [] then Drained(c, [], [])
    else if queue[0].Emit? then
      var d := Drain(c, queue[1..]);
      d.(emitted := [queue[0].action] + d.emitted)
    else
      var r := Complete(c, queue[0]);
      CompletionsEnd(c, queue[0]);
      var d := Drain(r.core, queue[1..] + r.queue);
      d.(writes := WritesFor(queue[0]) + d.writes)
  }

  /** Nothing outstanding and everything durable. */
  predicate Idle(c: Core) {
    && c.hard == map[] && c.logs == map[] && c.commits == map[] && c.snapshots == map[]
    && c.durableTerm == c.node.term && c.durableVotedFor == c.node.votedFor
    && c.durableLog == LastIndex(c.node) && c.durableCommit == c.node.commit
  }

  // --------------------------------------------------------------- short queues

  lemma {:induction false} DrainEmits(c: Core, actions: seq<Action>, rest: seq<CoreAction>)
    requires Orderly(c)
    ensures var d := Drain(c, rest); Drain(c, Emits(actions) + rest) == d.(emitted := actions + d.emitted)
    decreases |actions|
  {
    hide Complete, WritesFor;
    if actions == [] {
      assert Emits(actions) + rest == rest;
    } else {
      var queue := Emits(actions) + rest;
      assert queue[1..] == Emits(actions[1..]) + rest;
      DrainEmits(c, actions[1..], rest);
      assert [actions[0]] + actions[1..] == actions;
      var shown := Drain(c, rest).emitted;
      assert [actions[0]] + (actions[1..] + shown) == actions + shown;
    }
  }

  lemma DrainOne(c: Core, a: CoreAction, rest: seq<CoreAction>)
    requires Orderly(c) && !a.Emit?
    ensures Orderly(Complete(c, a).core)
    ensures var r := Complete(c, a);
            var d := Drain(r.core, rest + r.queue);
            Drain(c, [a] + rest) == d.(writes := WritesFor(a) + d.writes)
  {
    CompletionsEnd(c, a);
    hide Complete, WritesFor, Orderly;
    assert ([a] + rest)[1..] == rest;
  }

  /** The drained core did exactly what Node.Step says, and is idle again. */
  predicate Realises(d: Drained, r: StepResult) {
    d.core.node == r.node && d.writes == r.writes && d.emitted == r.actions && Idle(d.core)
  }

  /** The log, its base and the commit index are as they were. */
  predicate SameLog(c: Core, n: Node) {
    n.log == c.node.log && n.base == c.node.base && n.commit == c.node.commit
  }

  lemma DrainQuiet(c: Core, n: Node, actions: seq<Action>)
    requires Idle(c) && SameLog(c, n) && n.term == c.node.term && n.votedFor == c.node.votedFor
    ensures Realises(Drain(c.(node := n), Emits(actions)), StepResult(n, [], actions))
  {
    hide Emits;
    DrainEmits(c.(node := n), actions, []);
    assert Emits(actions) + [] == Emits(actions);
    assert actions + [] == actions;
  }

  /** Persisting a hard state releases exactly what waited for it. */
  lemma DrainHard(c: Core, n: Node, after: seq<CoreAction>, rest: seq<CoreAction>)
    requires Orderly(c) && c.hard == map[] && c.node == n
    ensures var ask := AskHard(c, after);
            var c' := c.(nextHard := c.nextHard + 1, durableTerm := n.term, durableVotedFor := n.votedFor);
            var d := Drain(c', rest + after);
            Drain(ask.core, ask.queue + rest) == d.(writes := [SaveHardState(n.term, n.votedFor)] + d.writes)
  {
    var ask := AskHard(c, after);
    var id := c.nextHard + 1;
    var c' := c.(nextHard := id, durableTerm := n.term, durableVotedFor := n.votedFor);
    DrainOne(ask.core, ask.queue[0], rest);
    assert ask.core.hard - {id} == map[];
    assert HardPersisted(ask.core, id) == Output(c', after);
  }

  /** With the whole log durable, sending is not held back. */
  lemma SendEachDurable(c: Core, readId: nat)
    requires c.durableLog == LastIndex(c.node)
    ensures var sent := SendAll(c.node, c.node.peers, readId);
            SendEach(c, readId) == Output(c.(node := sent.node), Emits(sent.actions))
  {
    hide SendAll, Emits;
    SendAllSilent(c.node, c.node.peers, readId);
    var sent := SendAll(c.node, c.node.peers, readId);
    assert sent.node.(log := c.node.log) == sent.node;
  }

  lemma SendOneDurable(c: Core, peer: NodeId, readId: nat)
    requires c.durableLog == LastIndex(c.node)
    ensures var sent := SendTo(c.node, peer, readId);
            SendOne(c, peer, readId) == Output(c.(node := sent.node), Emits(sent.actions))
  {
    hide SendTo, Emits;
    SendToSilent(c.node, peer, readId);
    var sent := SendTo(c.node, peer, readId);
    assert sent.node.(log := c.node.log) == sent.node;
  }

  lemma EmitsConcat(a: seq<Action>, b: seq<Action>)
    ensures Emits(a + b) == Emits(a) + Emits(b)
  {
  }

  lemma TwoEmits(a: Action, b: Action)
    ensures Emits([a, b]) == [Emit(a), Emit(b)]
  {
  }

  lemma EmitOne(a: Action)
    ensures Emits([a]) == [Emit(a)]
  {
  }

  lemma OneAppend(e: Entry)
    ensures StoreWrites(0, [e]) == [Append(e)]
  {
  }

  /** The same durable positions under another Node value. */
  predicate Durably(c: Core, n: Node) {
    && c.hard == map[] && c.logs == map[] && c.commits == map[] && c.snapshots == map[]
    && c.durableTerm == n.term && c.durableVotedFor == n.votedFor
    && c.durableLog == LastIndex(n) && c.durableCommit == n.commit
  }

  /** Effects alone. */
  lemma DrainShown(c: Core, actions: seq<Action>)
    requires Idle(c)
    ensures Drain(c, Emits(actions)) == Drained(c, [], actions)
  {
    hide Emits;
    DrainEmits(c, actions, []);
    assert Emits(actions) + [] == Emits(actions);
    assert actions + [] == actions;
  }

  // ---------------------------------------------------------------- hard states

  /** A Term change is written before anything else of the step. */
  lemma DrainAfterTerm(c: Core, changed: bool, after: seq<CoreAction>)
    requires Orderly(c) && c.hard == map[] && (!changed ==> c.durableTerm == c.node.term && c.durableVotedFor == c.node.votedFor)
    ensures var out := AfterTerm(c, changed, after);
            var c' := c.(nextHard := if changed then c.nextHard + 1 else c.nextHard, durableTerm := c.node.term, durableVotedFor := c.node.votedFor);
            var d := Drain(c', after);
            Orderly(out.core) && Drain(out.core, out.queue) == d.(writes := HardStateIf(changed, c.node) + d.writes)
  {
    hide Drain;
    if changed {
      DrainHard(c, c.node, after, []);
      var out := AskHard(c, after);
      assert out.queue + [] == out.queue && [] + after == after;
    } else {
      var d := Drain(c, after);
      assert [] + d.writes == d.writes;
      assert c.(nextHard := c.nextHard, durableTerm := c.node.term, durableVotedFor := c.node.votedFor) == c;
    }
  }

  lemma DrainHardOnly(c: Core, n: Node, changed: bool, actions: seq<Action>)
    requires Idle(c) && SameLog(c, n) && (!changed ==> n.term == c.node.term && n.votedFor == c.node.votedFor)
    ensures var out := AfterTerm(c.(node := n), changed, Emits(actions));
            Orderly(out.core) && Realises(Drain(out.core, out.queue), StepResult(n, HardStateIf(changed, n), actions))
  {
    hide Emits, Drain;
    var c1 := c.(node := n);
    DrainAfterTerm(c1, changed, Emits(actions));
    var c' := c1.(nextHard := if changed then c.nextHard + 1 else c.nextHard, durableTerm := n.term, durableVotedFor := n.votedFor);
    DrainShown(c', actions);
    assert HardStateIf(changed, n) + [] == HardStateIf(changed, n);
  }

  // -------------------------------------------------------------- Leader entries

  lemma DrainLeaderLog(c: Core, n: Node, e: Entry, shown: seq<Action>)
    requires Idle(c) && n.role == Leader && n.log == c.node.log + [e] && n.base == c.node.base && n.commit == c.node.commit
    requires n.term == c.node.term && n.votedFor == c.node.votedFor && e.index == LastIndex(n)
    ensures var ask := AskLog(c.(node := n), 0, [e], LeaderEntry(n.term, e.index));
            var sent := SendAll(n, n.peers, 0);
            Orderly(ask.core)
            && Realises(Drain(ask.core, Emits(shown) + ask.queue), StepResult(sent.node, [Append(e)], shown + sent.actions))
  {
    hide Emits, Drain, SendAll;
    var id := c.nextLog + 1;
    var ask := AskLog(c.(node := n), 0, [e], LeaderEntry(n.term, e.index));
    var sent := SendAll(n, n.peers, 0);
    DrainEmits(ask.core, shown, ask.queue);
    DrainOne(ask.core, ask.queue[0], []);
    assert ask.queue == [ask.queue[0]] + [];
    assert ask.core.logs - {id} == map[];
    var c' := c.(nextLog := id, node := n, durableLog := LastIndex(n));
    SendEachDurable(c', 0);
    assert LogPersisted(ask.core, id) == Output(c'.(node := sent.node), Emits(sent.actions));
    SendAllVolatile(n, n.peers, 0);
    assert [] + Emits(sent.actions) == Emits(sent.actions);
    DrainShown(c'.(node := sent.node), sent.actions);
    OneAppend(e);
    assert [Append(e)] + [] == [Append(e)];
  }

  // ------------------------------------------------------------------- Followers

  /** Advancing the commit index: persist it first, apply after. */
  lemma DrainAdvance(c: Core, leaderCommit: nat, reply: Action, shown: seq<Action>)
    requires Idle(c)
    ensures var out := AdvanceFollower(c, leaderCommit, Emit(reply));
            var target := Min(leaderCommit, LastIndex(c.node));
            var n1 := if target > c.node.commit then c.node.(commit := target) else c.node;
            var applied := ApplyThrough(n1, n1.commit);
            && Orderly(out.core)
            && Realises(Drain(out.core, Emits(shown) + out.queue),
                        StepResult(applied.node, if target > c.node.commit then [SaveCommit(target)] else [], shown + applied.actions + [reply]))
  {
    hide Emits, Drain, ApplyThrough;
    var out := AdvanceFollower(c, leaderCommit, Emit(reply));
    var target := Min(leaderCommit, LastIndex(c.node));
    var n1 := if target > c.node.commit then c.node.(commit := target) else c.node;
    var applied := ApplyThrough(n1, n1.commit);
    ApplyThroughVolatile(n1, n1.commit);
    EmitOne(reply);
    EmitsConcat(applied.actions, [reply]);
    DrainEmits(out.core, shown, out.queue);
    assert shown + (applied.actions + [reply]) == shown + applied.actions + [reply];
    if target > c.node.commit {
      var id := c.nextCommit + 1;
      DrainOne(out.core, out.queue[0], []);
      assert out.queue == [out.queue[0]] + [];
      assert out.core.commits - {id} == map[];
      var c' := c.(nextCommit := id, node := applied.node, durableCommit := target);
      assert CommitPersisted(out.core, id) == Output(c', Emits(applied.actions) + [Emit(reply)]);
      assert [] + (Emits(applied.actions) + [Emit(reply)]) == Emits(applied.actions + [reply]);
      DrainShown(c', applied.actions + [reply]);
      assert [SaveCommit(target)] + [] == [SaveCommit(target)];
    } else {
      DrainShown(c.(node := applied.node), applied.actions + [reply]);
    }
  }
}
