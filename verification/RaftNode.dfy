/** The consensus core as internal/raft/raft.go writes it: an object whose
    handlers update its fields in place and return actions. Every handler is
    proved to do what the value functions of Core.dfy say. */
module RaftNode {
  import opened Types
  import opened Messages
  import opened Node
  import Spec = Node
  import opened Core
  import Values = Core
  import opened Draining
  import opened Machines

  // -------------------------------------------------------- loops over plain values

  predicate Increasing(s: seq<nat>) { forall i, j :: 0 <= i < j < |s| ==> s[i] < s[j] }

  /** sort.Slice on a set of identifiers. */
  method Sorted(ids: set<nat>) returns (s: seq<nat>)
    ensures Increasing(s) && (forall x: nat :: x in s <==> x in ids) && (s == [] <==> ids == {})
  {
    s := [];
    var rest := ids;
    while rest != {}
      invariant rest <= ids && Increasing(s)
      invariant forall x: nat :: x in ids <==> x in s || x in rest
      invariant forall i, y: nat :: 0 <= i < |s| && y in rest ==> s[i] < y
      decreases |rest|
    {
      var x := Least(rest);
      s := s + [x];
      rest := rest - {x};
    }
    if s == [] { assert ids == {}; } else { assert s[0] in s; }
  }

  /** One message to every peer, in order. */
  method SendToPeers(peers: seq<NodeId>, m: Message) returns (actions: seq<CoreAction>)
    ensures actions == Emits(Broadcast(peers, m))
  {
    actions := [];
    ghost var shown: seq<Action> := [];
    var i := 0;
    while i < |peers|
      invariant i <= |peers|
      invariant actions == Emits(shown) && shown + Broadcast(peers[i..], m) == Broadcast(peers, m)
    {
      assert peers[i..][1..] == peers[i + 1..];
      actions, shown := actions + [Emit(Send(peers[i], m))], shown + [Send(peers[i], m)];
      i := i + 1;
    }
    assert peers[i..] == [];
  }

  function HolderSet(peers: seq<NodeId>, matchIndex: map<NodeId, nat>, index: nat): set<NodeId> {
    set p | p in peers && Get(matchIndex, p, 0) >= index
  }

  lemma HolderStep(peers: seq<NodeId>, matchIndex: map<NodeId, nat>, index: nat, i: nat)
    requires i < |peers| && peers[i] !in peers[..i]
    ensures |HolderSet(peers[..i + 1], matchIndex, index)|
         == |HolderSet(peers[..i], matchIndex, index)| + if Get(matchIndex, peers[i], 0) >= index then 1 else 0
  {
    var before := HolderSet(peers[..i], matchIndex, index);
    assert peers[..i + 1] == peers[..i] + [peers[i]];
    if Get(matchIndex, peers[i], 0) >= index {
      assert HolderSet(peers[..i + 1], matchIndex, index) == before + {peers[i]};
    } else {
      assert HolderSet(peers[..i + 1], matchIndex, index) == before;
    }
  }

  /** How many peers are known to hold an index. */
  method CountReplicas(peers: seq<NodeId>, matchIndex: map<NodeId, nat>, index: nat) returns (count: nat)
    requires forall i, j :: 0 <= i < j < |peers| ==> peers[i] != peers[j]
    ensures count == |HolderSet(peers, matchIndex, index)|
  {
    hide HolderSet;
    count := 0;
    var i := 0;
    assert |HolderSet(peers[..0], matchIndex, index)| == 0 by { NoHolders(peers, matchIndex, index); }
    while i < |peers|
      invariant i <= |peers|
      invariant count == |HolderSet(peers[..i], matchIndex, index)|
    {
      HolderStep(peers, matchIndex, index, i);
      if Get(matchIndex, peers[i], 0) >= index { count := count + 1; }
      i := i + 1;
    }
    assert peers[..i] == peers;
  }

  lemma NoHolders(peers: seq<NodeId>, matchIndex: map<NodeId, nat>, index: nat)
    ensures HolderSet(peers[..0], matchIndex, index) == {}
  {
  }

  /** The leading entries that fit one request (the loop of entriesBatch). */
  method FittingPrefix(entries: seq<Entry>) returns (k: nat)
    ensures k == BatchLength(entries, 0, 0)
  {
    var bytes: nat := 0;
    k := 0;
    while k < |entries|
      invariant k <= |entries|
      invariant k + BatchLength(entries[k..], k, bytes) == BatchLength(entries, 0, 0)
    {
      assert entries[k..][1..] == entries[k + 1..];
      var size := EntryBytes(entries[k]);
      if bytes + size > MAX_APPEND_BYTES && k > 0 { return; }
      bytes := bytes + size;
      k := k + 1;
    }
  }

  /** Every peer starts right after the Leader's log. */
  method InitialIndexes(peers: seq<NodeId>, index: nat) returns (next: map<NodeId, nat>)
    ensures next == InitialNext(peers, index)
  {
    next := map[];
    var i := 0;
    while i < |peers|
      invariant i <= |peers| && next == InitialNext(peers[..i], index)
    {
      assert peers[..i + 1] == peers[..i] + [peers[i]];
      next := next[peers[i] := index];
      i := i + 1;
    }
    assert peers[..i] == peers;
  }

  /** How many leading entries a Snapshot covers. */
  method CoveredCount(log: seq<Entry>, base: nat, index: nat) returns (first: nat)
    requires WellIndexed(log, base) && base <= index
    ensures first == Min(|log|, index - base)
  {
    first := 0;
    while first < |log| && log[first].index <= index
      invariant first <= |log| && base + first <= index
    {
      first := first + 1;
    }
  }

  lemma LeastIs(ids: set<nat>, x: nat)
    requires IsLeast(ids, x)
    ensures ids != {} && Least(ids) == x
  {
  }

  /** Entries as a Leader sends them: one after the other. */
  predicate Contiguous(entries: seq<Entry>) {
    forall i :: 0 < i < |entries| ==> entries[i].index == entries[i - 1].index + 1
  }

  /** What a plan stores continues the log. Only the first new entry is compared
      with the end of the log; the WAL refuses a plan that does not continue it. */
  predicate Continues(n: Node, plan: Plan) {
    plan.Store? ==> WellIndexed(plan.tail, if plan.truncateFrom != 0 then plan.truncateFrom - 1 else LastIndex(n))
  }

  predicate AppendFits(n: Node, m: Message)
    requires m.AppendRequest?
  {
    n.term <= m.term && Spec.Matches(n, m.prevIndex, m.prevTerm) ==> Continues(n, PlanAppend(n, m.prevIndex + 1, m.entries))
  }

  /** An event after which the core's log is still numbered without gaps. */
  predicate Fits(n: Node, ev: Event) { ev.Receive? && ev.msg.AppendRequest? ==> AppendFits(n, ev.msg) }

  /** The newest log persistence waits under another index. */
  function Renumbered(out: Output, last: nat): Output {
    var c := out.core;
    if c.nextLog in c.logs then Output(c.(logs := c.logs[c.nextLog := c.logs[c.nextLog].(lastIndex := last)]), out.queue) else out
  }

  /** The index the core takes for its last after an append request. */
  function LastSent(entries: seq<Entry>): nat { if entries == [] then 0 else entries[|entries| - 1].index }

  /** A Snapshot the WAL accepted: above the old one, and dropping nothing committed. */
  predicate SnapshotReady(c: Core, id: nat) {
    id in c.snapshots && c.snapshots[id].request.SnapshotRequest? ==>
      var m := c.snapshots[id].request;
      && c.node.base < m.index
      && if c.snapshots[id].keep then m.index <= LastIndex(c.node) && m.index <= c.durableLog && Spec.TermAt(c.node, m.index) == m.snapTerm
         else c.node.commit <= m.index
  }

  /** The core object. The protocol fields of raft.Node sit in the record `node`;
      the cached end of the log, the durable positions and the outstanding
      persistence are fields of their own. */
  class RaftCore {
    var node: Node
    var lastLogIndex: nat
    var lastLogTerm: nat
    var durableTerm: nat
    var durableVotedFor: NodeId
    var durableLogIndex: nat
    var durableCommitIndex: nat
    var nextHardState: nat
    var pendingHardState: map<nat, HardPending>
    var nextLog: nat
    var pendingLog: map<nat, LogPending>
    var nextCommit: nat
    var pendingCommit: map<nat, CommitPending>
    var nextSnapshot: nat
    var pendingSnapshot: map<nat, SnapshotPending>

    ghost function Value(): Core
      reads this
    {
      Core(node, durableTerm, durableVotedFor, durableLogIndex, durableCommitIndex, nextHardState, pendingHardState,
           nextLog, pendingLog, nextCommit, pendingCommit, nextSnapshot, pendingSnapshot)
    }

    /** The end of the log is cached correctly and the positions are in order. */
    ghost predicate Valid()
      reads this
    {
      && lastLogIndex == LastIndex(node) && lastLogTerm == LastTerm(node) && WellIndexed(node.log, node.base)
      && node.base <= node.lastApplied <= node.commit <= lastLogIndex
      && node.base <= durableLogIndex && durableCommitIndex <= node.commit
      && (forall i, j :: 0 <= i < j < |node.peers| ==> node.peers[i] != node.peers[j])
      && (forall k :: k in pendingSnapshot ==> pendingSnapshot[k].request.SnapshotRequest?)
      && (forall k :: k in pendingCommit ==> pendingCommit[k].index <= node.commit)
    }

    // -------------------------------------------------------------- reading the log

    function TermAt(index: nat): (t: nat)
      requires lastLogIndex == LastIndex(node)
      reads this
      ensures t == Spec.TermAt(node, index)
    {
      if index == node.base then node.baseTerm
      else if index <= node.base || index > lastLogIndex then 0
      else node.log[index - node.base - 1].term
    }

    /** The entries from `first` to `last` that fit one request. */
    method EntriesBatch(first: nat, last: nat) returns (entries: seq<Entry>)
      requires Valid() && node.base <= last <= lastLogIndex
      ensures entries == Spec.EntriesBatch(node.(log := node.log[..last - node.base]), first)
    {
      if first == 0 || first > last || last > lastLogIndex { return []; }
      if first <= node.base { return []; }
      var rest := node.log[first - node.base - 1..last - node.base];
      assert rest == node.log[..last - node.base][first - node.base - 1..];
      var k := FittingPrefix(rest);
      return rest[..k];
    }

    method ConflictHint(index: nat) returns (hint: Hint)
      requires Valid()
      ensures hint == Spec.ConflictHint(node, index)
    {
      if index == 0 || index > lastLogIndex { return Hint(0, lastLogIndex + 1); }
      var t := TermAt(index);
      var first: nat := index;
      while first > node.base + 1 && TermAt(first - 1) == t
        invariant first <= index && FirstOfTerm(node, first, t) == FirstOfTerm(node, index, t)
        decreases first
      {
        first := first - 1;
      }
      return Hint(t, first);
    }

    method NextIndexFromConflict(hint: Hint) returns (next: nat)
      requires Valid()
      ensures next == Spec.NextIndexFromConflict(node, hint)
    {
      next := hint.index;
      if hint.term != 0 {
        var index: nat := lastLogIndex;
        while index > 0 && TermAt(index) != hint.term
          invariant index <= lastLogIndex && LastOfTerm(node, index, hint.term) == LastOfTerm(node, lastLogIndex, hint.term)
        {
          index := index - 1;
        }
        if index > 0 { next := index + 1; }
      }
      if next == 0 { next := 1; }
      next := if next <= lastLogIndex + 1 then next else lastLogIndex + 1;
    }

    method EntriesToAppend(prevIndex: nat, entries: seq<Entry>) returns (plan: Plan)
      requires Valid()
      ensures plan == PlanAppend(node, prevIndex + 1, entries)
    {
      var offset := 0;
      while offset < |entries|
        invariant offset <= |entries|
        invariant PlanAppend(node, prevIndex + offset + 1, entries[offset..]) == PlanAppend(node, prevIndex + 1, entries)
      {
        assert entries[offset..][1..] == entries[offset + 1..];
        var e := entries[offset];
        if e.index != prevIndex + offset + 1 { return Refuse; }
        if e.index <= lastLogIndex {
          if TermAt(e.index) != e.term {
            if e.index <= node.commit { return Refuse; }
            return Store(e.index, entries[offset..]);
          }
          offset := offset + 1;
        } else {
          if e.index != lastLogIndex + 1 { return Refuse; }
          return Store(0, entries[offset..]);
        }
      }
      return Nothing;
    }

    method PendingReadFor(peer: NodeId) returns (readId: nat)
      ensures readId == Spec.PendingReadFor(node, peer)
    {
      var ids := set r | r in node.waiting && peer !in node.waiting[r].acks;
      var sorted := Sorted(ids);
      if |sorted| == 0 { return 0; }
      assert sorted[0] in sorted;
      assert IsLeast(ids, sorted[0]);
      LeastIs(ids, sorted[0]);
      return sorted[0];
    }

    // ------------------------------------------------------------ asking to persist

    method PersistHardState(after: seq<CoreAction>) returns (actions: seq<CoreAction>)
      modifies this`nextHardState, this`pendingHardState
      ensures Output(Value(), actions) == AskHard(old(Value()), after)
    {
      nextHardState := nextHardState + 1;
      pendingHardState := pendingHardState[nextHardState := HardPending(node.term, node.votedFor, after)];
      return [CoreAction.PersistHardState(nextHardState, node.term, node.votedFor)];
    }

    method PersistLogEntries(truncateFrom: nat, entries: seq<Entry>, pending: LogPending) returns (actions: seq<CoreAction>)
      modifies this`nextLog, this`pendingLog
      ensures Output(Value(), actions) == AskLog(old(Value()), truncateFrom, entries, pending)
    {
      nextLog := nextLog + 1;
      pendingLog := pendingLog[nextLog := pending];
      return [PersistLog(nextLog, truncateFrom, entries)];
    }

    method PersistCommitIndex(after: seq<CoreAction>) returns (actions: seq<CoreAction>)
      requires Valid()
      modifies this
      ensures Valid() && Output(Value(), actions) == AskCommit(old(Value()), after)
    {
      nextCommit := nextCommit + 1;
      pendingCommit := pendingCommit[nextCommit := CommitPending(node.commit, after)];
      return [PersistCommit(nextCommit, node.commit)];
    }

    method PersistReceivedSnapshot(from: NodeId, m: Message, st: Staged, keep: bool) returns (actions: seq<CoreAction>)
      requires Valid() && m.SnapshotRequest?
      modifies this
      ensures Valid() && Output(Value(), actions) == AskSnapshot(old(Value()), from, m, st, keep)
    {
      nextSnapshot := nextSnapshot + 1;
      pendingSnapshot := pendingSnapshot[nextSnapshot := SnapshotPending(from, m, st, keep)];
      return [CoreAction.PersistSnapshot(nextSnapshot, m.index, m.snapTerm, keep)];
    }

    method AfterTermChange(changed: bool, after: seq<CoreAction>) returns (actions: seq<CoreAction>)
      modifies this`nextHardState, this`pendingHardState
      ensures Output(Value(), actions) == AfterTerm(old(Value()), changed, after)
    {
      actions := after;
      if changed { actions := PersistHardState(after); }
    }

    // ------------------------------------------------------------------- elections

    method BecomeFollower(t: nat, leader: NodeId)
      requires Valid()
      modifies this`node
      ensures Valid() && node == Spec.BecomeFollower(old(node), t, leader)
    {
      if t > node.term { node := node.(votedFor := ""); }
      node := node.(role := Follower, term := t, leaderId := leader, recentContact := leader != "");
      node := node.(votes := {}, preVotes := {}, activePeers := {});
      node := node.(matchIndex := map[], nextIndex := map[], inFlight := map[], snapInFlight := map[]);
      node := node.(waiting := map[], readReady := false);
    }

    method StepDown(t: nat) returns (actions: seq<CoreAction>)
      requires Valid()
      modifies this
      ensures Valid() && Output(Value(), actions) == StepDownTo(old(Value()), t)
    {
      BecomeFollower(t, "");
      actions := PersistHardState([]);
    }

    method StartElection() returns (actions: seq<CoreAction>)
      requires Valid()
      modifies this
      ensures Valid() && Output(Value(), actions) == StandForElection(old(Value()))
    {
      ghost var before := node;
      node := node.(role := Candidate, term := node.term + 1);
      node := node.(votedFor := node.id, leaderId := "", readReady := false, votes := {node.id});
      var requests := SendToPeers(node.peers, VoteRequest(node.term, lastLogIndex, lastLogTerm));
      assert [Emit(ResetElectionTimer)] + requests == Emits(Spec.StartElection(before).actions);
      actions := PersistHardState([Emit(ResetElectionTimer)] + requests);
    }

    method StartPreVote() returns (actions: seq<CoreAction>)
      requires Valid()
      modifies this
      ensures Valid() && Output(Value(), actions) == HandleElectionTimeout(old(Value()))
    {
      if node.role == Leader { return []; }
      node := node.(recentContact := false, leaderId := "");
      node := node.(role := PreCandidate, preVotes := {node.id});
      var requests := SendToPeers(node.peers, PreVoteRequest(node.term + 1, lastLogIndex, lastLogTerm));
      actions := [Emit(ResetElectionTimer)] + requests;
      if Quorum(node) == 1 {
        var election := StartElection();
        actions := actions + election;
      }
    }

    method HandlePreVoteRequest(from: NodeId, m: Message) returns (actions: seq<CoreAction>)
      requires Valid() && m.PreVoteRequest?
      ensures Output(Value(), actions) == Quiet(Value(), OnPreVoteRequest(node, from, m))
    {
      var grant := m.term >= node.term + 1 && !node.recentContact && LogIsUpToDate(m.lastTerm, m.lastIndex, lastLogTerm, lastLogIndex);
      actions := [Emit(Send(from, PreVoteReply(m.term, node.term, grant)))];
      EmitOne(Send(from, PreVoteReply(m.term, node.term, grant)));
    }

    method HandlePreVoteReply(from: NodeId, m: Message) returns (actions: seq<CoreAction>)
      requires Valid() && m.PreVoteReply?
      modifies this
      ensures Valid() && Output(Value(), actions) == Values.HandlePreVoteReply(old(Value()), from, m)
    {
      actions := [];
      if m.currentTerm > node.term {
        actions := StepDown(m.currentTerm);
        return;
      }
      if node.role != PreCandidate || m.term != node.term + 1 || !m.granted { return; }
      node := node.(preVotes := node.preVotes + {from});
      if |node.preVotes| < Quorum(node) { return; }
      actions := StartElection();
    }

    method HandleVoteRequest(from: NodeId, m: Message) returns (actions: seq<CoreAction>)
      requires Valid() && m.VoteRequest?
      modifies this
      ensures Valid() && Output(Value(), actions) == Values.HandleVoteRequest(old(Value()), from, m)
    {
      hide AfterTerm, Spec.BecomeFollower;
      if m.term < node.term { return [Emit(Send(from, VoteReply(node.term, false)))]; }
      var changed := m.term > node.term;
      if changed { BecomeFollower(m.term, ""); }
      var canVote := node.votedFor == "" || node.votedFor == from;
      var grant := canVote && LogIsUpToDate(m.lastTerm, m.lastIndex, lastLogTerm, lastLogIndex);
      if grant { node := node.(votedFor := from); }
      var voteIsDurable := durableTerm == node.term && durableVotedFor == from;
      actions := AfterTermChange(changed || (grant && !voteIsDurable), [Emit(Send(from, VoteReply(node.term, grant)))]);
    }

    // ------------------------------------------------------------------ the log

    /** The end of the log is the index the last entry carries, so it is right
        exactly when the entries continue the log. */
    method AppendEntries(entries: seq<Entry>)
      requires Valid() && entries != []
      modifies this`node, this`lastLogIndex, this`lastLogTerm
      ensures node == old(node).(log := old(node).log + entries) && lastLogIndex == LastSent(entries)
      ensures Valid() <==> WellIndexed(entries, old(lastLogIndex))
    {
      IndexedConcat(node.log, entries, node.base);
      node := node.(log := node.log + entries);
      lastLogIndex := node.log[|node.log| - 1].index;
      lastLogTerm := node.log[|node.log| - 1].term;
    }

    method TruncateLog(firstIndex: nat)
      requires Valid() && node.commit < firstIndex <= lastLogIndex
      modifies this`node, this`lastLogIndex, this`lastLogTerm, this`durableLogIndex
      ensures Valid() && node == old(node).(log := old(node).log[..firstIndex - old(node).base - 1])
      ensures durableLogIndex == Min(old(durableLogIndex), firstIndex - 1)
    {
      node := node.(log := node.log[..firstIndex - node.base - 1]);
      lastLogIndex := firstIndex - 1;
      lastLogTerm := TermAt(lastLogIndex);
      durableLogIndex := if durableLogIndex <= lastLogIndex then durableLogIndex else lastLogIndex;
    }

    method CompactLog(index: nat, t: nat)
      requires Valid() && node.lastApplied <= durableLogIndex
      modifies this`node
      ensures Valid() && node == OnCompacted(old(node), index, t).node
    {
      if index <= node.base || index > node.lastApplied || TermAt(index) != t { return; }
      node := node.(log := node.log[index - node.base..], base := index, baseTerm := t);
    }

    // --------------------------------------------------------------- applying, reads

    method CompleteReads() returns (actions: seq<CoreAction>)
      requires Valid()
      modifies this`node
      ensures Valid() && var done := Spec.CompleteReads(old(node)); node == done.node && actions == Emits(done.actions)
    {
      hide ReadsLeft, Emits, ReadyReads, Spec.CompleteReads;
      ghost var before, shown: seq<Action> := node, [];
      var readIds := Sorted(node.waiting.Keys);
      actions := [];
      var i := 0;
      ReadsStart(node, readIds);
      while i < |readIds|
        modifies this`node
        invariant i <= |readIds| && actions == Emits(shown) && ReadsLeft(before, node, shown, readIds[i..])
        invariant node == before.(waiting := node.waiting)
      {
        var readId := readIds[i];
        assert readIds[i..][0] == readId && readIds[i..][1..] == readIds[i + 1..];
        ReadsNext(before, node, shown, readIds[i..]);
        if readId in node.waiting && node.waiting[readId].confirmed && node.lastApplied >= node.waiting[readId].commitIndex {
          ghost var a := ReadConfirmed(readId, node.waiting[readId].commitIndex);
          actions := actions + [Emit(ReadConfirmed(readId, node.waiting[readId].commitIndex))];
          node := node.(waiting := node.waiting - {readId});
          EmitsSnoc(shown, a);
          shown := shown + [a];
        }
        i := i + 1;
      }
      ReadsEnd(before, node, shown, readIds[i..]);
    }

    method ApplyThrough(index: nat) returns (actions: seq<CoreAction>)
      requires Valid() && index <= node.commit
      modifies this`node
      ensures Valid() && var done := Spec.ApplyThrough(old(node), index); node == done.node && actions == Emits(done.actions)
    {
      hide Spec.ApplyThrough, Spec.CompleteReads, Emits, ApplyLeft;
      ghost var before, shown: seq<Action> := node, [];
      actions := [];
      ApplyStart(node, index);
      while node.lastApplied < index
        modifies this`node
        invariant Valid() && index <= node.commit && actions == Emits(shown) && ApplyLeft(before, node, index, shown)
        decreases index - node.lastApplied
      {
        ApplyNext(before, node, index, shown);
        ghost var one := ApplyOne(node);
        var entry := node.log[node.lastApplied - node.base];
        node := node.(lastApplied := node.lastApplied + 1);
        actions := actions + [Emit(ApplyEntry(entry))];
        EmitsSnoc(shown, ApplyEntry(entry));
        ghost var total := shown + [ApplyEntry(entry)];
        if node.role == Leader && !node.readReady && entry.kind == NoOp && entry.term == node.term {
          node := node.(readReady := true);
          actions := actions + [Emit(BecameReadReady(node.term))];
          EmitsSnoc(total, BecameReadReady(node.term));
          total := total + [BecameReadReady(node.term)];
        }
        assert node == one.node && total == shown + one.actions;
        shown := total;
      }
      ApplyEnd(before, node, index, shown);
      EmitsConcat(shown, Spec.CompleteReads(node).actions);
      var completed := CompleteReads();
      actions := actions + completed;
    }

    // ----------------------------------------------------------------- replication

    method SendSnapshotTo(peer: NodeId) returns (m: Message)
      requires Valid()
      modifies this`node
      ensures Valid() && m == SnapshotRequest(node.term, node.nextRequest, node.base, node.baseTerm, 0)
      ensures var request := old(node).nextRequest + 1;
              node == old(node).(nextRequest := request, snapInFlight := old(node).snapInFlight[peer := request])
    {
      node := node.(nextRequest := node.nextRequest + 1);
      node := node.(snapInFlight := node.snapInFlight[peer := node.nextRequest]);
      return SnapshotRequest(node.term, node.nextRequest, node.base, node.baseTerm, 0);
    }

    method SendEntriesTo(peer: NodeId, next: nat, last: nat, readId: nat) returns (m: Message)
      requires Valid() && node.base < next && node.base <= last <= lastLogIndex
      modifies this`node
      ensures Valid()
      ensures var n, request := old(node), old(node).nextRequest + 1;
              && m == AppendRequest(n.term, request, next - 1, Spec.TermAt(n, next - 1),
                                    Spec.EntriesBatch(n.(log := n.log[..last - n.base]), next), n.commit, readId)
              && node == n.(nextRequest := request, inFlight := n.inFlight[peer := InFlight(request, n.commit)])
    {
      hide Spec.EntriesBatch;
      var entries := EntriesBatch(next, last);
      m := AppendRequest(node.term, node.nextRequest + 1, next - 1, TermAt(next - 1), entries, node.commit, readId);
      node := node.(nextRequest := node.nextRequest + 1);
      node := node.(inFlight := node.inFlight[peer := InFlight(node.nextRequest, node.commit)]);
    }

    /** Only what is durable is sent. */
    method SendAppendEntriesTo(peer: NodeId, readId: nat) returns (actions: seq<CoreAction>)
      requires Valid()
      modifies this`node
      ensures Valid() && Output(Value(), actions) == SendOne(old(Value()), peer, readId)
      ensures node.peers == old(node).peers && node.log == old(node).log
    {
      hide SendOne, Get, ServedFrom;
      if Get(node.inFlight, peer, InFlight(0, 0)).requestId != 0 {
        SendOneNothing(Value(), peer, readId, ServedFrom(node, peer, Min(durableLogIndex, LastIndex(node))));
        return [];
      }
      actions := SendTheNext(peer, readId);
    }

    method SendTheNext(peer: NodeId, readId: nat) returns (actions: seq<CoreAction>)
      requires Valid() && !Busy(node, peer)
      modifies this`node
      ensures Valid() && Output(Value(), actions) == SendOne(old(Value()), peer, readId)
      ensures node.peers == old(node).peers && node.log == old(node).log
    {
      hide SendOne, Get, Busy, Spec.EntriesBatch, Spec.TermAt, DurablePart;
      ghost var before := Value();
      var durableLast := Min(durableLogIndex, lastLogIndex);
      var next := ServedFrom(node, peer, durableLast);
      if next <= node.base {
        if Get(node.snapInFlight, peer, 0) != 0 {
          SendOneNothing(before, peer, readId, next);
          return [];
        }
        var m := SendSnapshotTo(peer);
        SendOneSnapshot(before, Value(), peer, readId, next);
        return [Emit(Send(peer, m))];
      }
      var m := SendEntriesTo(peer, next, durableLast, readId);
      SendOneEntries(before, Value(), peer, readId, next, durableLast);
      return [Emit(Send(peer, m))];
    }

    method SendAppendEntries(readId: nat) returns (actions: seq<CoreAction>)
      requires Valid()
      modifies this`node
      ensures Valid() && Output(Value(), actions) == SendEach(old(Value()), readId)
    {
      hide SendTo, SendAll, SendEach, Emits, SendLeft, DurablePart;
      ghost var before, shown: seq<Action> := Value(), [];
      actions := [];
      var i := 0;
      SendStart(Value(), readId);
      while i < |node.peers|
        modifies this`node
        invariant Valid() && i <= |node.peers| && node.peers == before.node.peers && node.log == before.node.log
        invariant Value() == before.(node := node) && actions == Emits(shown) && SendLeft(before, Value(), node.peers[i..], readId, shown)
      {
        var carried := readId;
        if carried == 0 { carried := PendingReadFor(node.peers[i]); }
        SendNext(before, Value(), node.peers[i..], readId, shown);
        assert node.peers[i..][0] == node.peers[i] && node.peers[i..][1..] == node.peers[i + 1..];
        ghost var one := SendTo(DurablePart(Value()), node.peers[i], carried);
        assert SendOne(Value(), node.peers[i], carried).queue == Emits(one.actions);
        var sent := SendAppendEntriesTo(node.peers[i], carried);
        actions := actions + sent;
        EmitsConcat(shown, one.actions);
        shown := shown + one.actions;
        i := i + 1;
      }
      SendEnd(before, Value(), node.peers[i..], readId, shown);
    }

    method AdvanceLeaderCommit() returns (advanced: bool)
      requires Valid()
      modifies this`node
      ensures Valid()
      ensures var index := LeaderCommit(old(node), LastIndex(old(node)));
              node == old(node).(commit := index) && advanced == (index > old(node).commit) && (!advanced ==> node == old(node))
    {
      var index: nat := lastLogIndex;
      while index > node.commit
        invariant node == old(node) && index <= lastLogIndex
        invariant LeaderCommit(node, index) == LeaderCommit(node, lastLogIndex)
        decreases index
      {
        if TermAt(index) == node.term {
          var replicated := CountReplicas(node.peers, node.matchIndex, index);
          assert HolderSet(node.peers, node.matchIndex, index) == Replicas(node, index);
          if 1 + replicated >= Quorum(node) {
            node := node.(commit := index);
            return true;
          }
        }
        index := index - 1;
      }
      return false;
    }

    method AcknowledgeRead(from: NodeId, readId: nat) returns (actions: seq<CoreAction>)
      requires Valid()
      modifies this`node
      ensures Valid() && var done := AckRead(old(node), from, readId); node == done.node && actions == Emits(done.actions)
    {
      hide Emits, Spec.CompleteReads;
      NoneEmitted();
      actions := [];
      if readId == 0 || readId !in node.waiting || node.waiting[readId].confirmed { return; }
      var read := node.waiting[readId].(acks := node.waiting[readId].acks + {from});
      node := node.(waiting := node.waiting[readId := read]);
      if |read.acks| < Quorum(node) { return; }
      ghost var confirmed := old(node).(waiting := old(node).waiting[readId := PendingRead(read.acks, node.commit, true)]);
      node := node.(waiting := node.waiting[readId := PendingRead(read.acks, node.commit, true)]);
      assert node == confirmed;
      actions := CompleteReads();
    }

    // ------------------------------------------------------------------ completions

    method HardStatePersisted(persistenceId: nat) returns (actions: seq<CoreAction>)
      requires Valid()
      modifies this
      ensures Valid() && Output(Value(), actions) == HardPersisted(old(Value()), persistenceId)
    {
      if persistenceId !in pendingHardState { return []; }
      var pending := pendingHardState[persistenceId];
      pendingHardState := pendingHardState - {persistenceId};
      durableTerm, durableVotedFor := pending.term, pending.votedFor;
      if pending.term != node.term || pending.votedFor != node.votedFor { return []; }
      return pending.after;
    }

    method AdvanceFollowerCommit(leaderCommit: nat, reply: CoreAction) returns (actions: seq<CoreAction>)
      requires Valid()
      modifies this
      ensures Valid() && Output(Value(), actions) == AdvanceFollower(old(Value()), leaderCommit, reply)
    {
      hide Spec.ApplyThrough, Emits;
      var target := if leaderCommit <= lastLogIndex then leaderCommit else lastLogIndex;
      if target > node.commit {
        node := node.(commit := target);
        actions := PersistCommitIndex([reply]);
      } else {
        actions := ApplyThrough(durableCommitIndex);
        actions := actions + [reply];
      }
    }

    method LogEntriesPersisted(persistenceId: nat) returns (actions: seq<CoreAction>)
      requires Valid()
      modifies this
      ensures Valid() && Output(Value(), actions) == LogPersisted(old(Value()), persistenceId)
    {
      hide SendEach, AdvanceFollower;
      actions := [];
      if persistenceId !in pendingLog { return; }
      var pending := pendingLog[persistenceId];
      pendingLog := pendingLog - {persistenceId};
      if pending.lastIndex > durableLogIndex { durableLogIndex := pending.lastIndex; }
      match pending
      case LeaderEntry(t, lastIndex) =>
        if node.role != Leader || node.term != t || lastLogIndex < lastIndex { return; }
        actions := SendAppendEntries(0);
      case FollowerAppend(t, leader, requestId, lastIndex, leaderCommit, readId) =>
        if node.term != t || node.role != Follower || node.leaderId != leader { return; }
        actions := AdvanceFollowerCommit(leaderCommit, Emit(Send(leader, AppendReply(node.term, requestId, true, lastIndex, 0, 0, readId))));
    }

    method CommitIndexPersisted(persistenceId: nat) returns (actions: seq<CoreAction>)
      requires Valid()
      modifies this
      ensures Valid() && Output(Value(), actions) == CommitPersisted(old(Value()), persistenceId)
    {
      hide Spec.ApplyThrough, Emits;
      if persistenceId !in pendingCommit { return []; }
      var pending := pendingCommit[persistenceId];
      pendingCommit := pendingCommit - {persistenceId};
      if pending.index > durableCommitIndex { durableCommitIndex := pending.index; }
      actions := ApplyThrough(pending.index);
      actions := actions + pending.after;
    }

    // ----------------------------------------------------------------------- events

    method HandleVoteReply(from: NodeId, m: Message) returns (actions: seq<CoreAction>)
      requires Valid() && m.VoteReply?
      modifies this
      ensures Valid() && Output(Value(), actions) == Values.HandleVoteReply(old(Value()), from, m)
    {
      actions := [];
      if m.term > node.term {
        actions := StepDown(m.term);
        return;
      }
      if node.role != Candidate || m.term != node.term || !m.granted { return; }
      node := node.(votes := node.votes + {from});
      if |node.votes| < Quorum(node) { return; }
      actions := TakeOffice();
    }

    /** A new Leader knows nothing about its peers yet. */
    method ClearPeerState()
      requires Valid()
      modifies this`node
      ensures Valid() && node == old(node).(role := Leader, leaderId := old(node).id, activePeers := {}, matchIndex := map[],
                                            inFlight := map[], snapInFlight := map[], readReady := false)
    {
      node := node.(role := Leader, leaderId := node.id, activePeers := {}, matchIndex := map[]);
      node := node.(inFlight := map[], snapInFlight := map[], readReady := false);
    }

    method TakeOffice() returns (actions: seq<CoreAction>)
      requires Valid()
      modifies this
      ensures Valid() && Output(Value(), actions) == Office(old(Value()))
    {
      hide Officer;
      var entry := FirstEntry(node);
      BecomeOfficer(entry);
      actions := PersistLogEntries(0, [entry], LeaderEntry(node.term, entry.index));
      actions := [Emit(BecameLeader(node.term)), Emit(ResetHeartbeatTimer), Emit(ResetCheckQuorumTimer)] + actions;
    }

    method BecomeOfficer(entry: Entry)
      requires Valid() && entry == FirstEntry(node)
      modifies this`node, this`lastLogIndex, this`lastLogTerm
      ensures Valid() && node == Officer(old(node)) && node.term == old(node).term
    {
      hide InitialNext;
      ClearPeerState();
      AppendEntries([entry]);
      var next := InitialIndexes(node.peers, lastLogIndex + 1);
      SetNext(next);
    }

    method SetNext(next: map<NodeId, nat>)
      requires Valid()
      modifies this`node
      ensures Valid() && node == old(node).(nextIndex := next)
    {
      node := node.(nextIndex := next);
    }

    method ProposeOne(proposalId: nat, entry: Entry) returns (actions: seq<CoreAction>)
      requires Valid() && entry.index == lastLogIndex + 1
      modifies this
      ensures Valid() && Output(Value(), actions) == ProposeEntry(old(Value()), proposalId, entry)
    {
      AppendEntries([entry]);
      actions := PersistLogEntries(0, [entry], LeaderEntry(node.term, entry.index));
      actions := [Emit(ProposalAccepted(proposalId, entry.index))] + actions;
    }

    method HandleProposal(ev: Event) returns (actions: seq<CoreAction>)
      requires Valid() && (ev.ProposeSession? || ev.ProposeSet? || ev.ProposeDelete?)
      modifies this
      ensures Valid() && Output(Value(), actions) == HandlePropose(old(Value()), ev)
    {
      hide ProposeEntry;
      actions := [];
      if node.role != Leader { return [Emit(ProposalRejected(ev.proposalId, node.leaderId))]; }
      match ev
      case ProposeSession(proposalId, kind, session) =>
        if kind != OpenSession && kind != CloseSession { return; }
        actions := ProposeOne(proposalId, Entry(lastLogIndex + 1, node.term, kind, session, 0, [], []));
      case ProposeSet(proposalId, session, sequence, key, value) =>
        actions := ProposeOne(proposalId, Entry(lastLogIndex + 1, node.term, SetKey, session, sequence, key, value));
      case ProposeDelete(proposalId, session, sequence, key) =>
        actions := ProposeOne(proposalId, Entry(lastLogIndex + 1, node.term, DeleteKey, session, sequence, key, []));
    }

    method ConfirmRead(readId: nat) returns (actions: seq<CoreAction>)
      requires Valid()
      modifies this
      ensures Valid() && Output(Value(), actions) == HandleConfirmRead(old(Value()), readId)
    {
      hide SendEach;
      if node.role != Leader { return [Emit(ReadRejected(readId, node.leaderId))]; }
      if !node.readReady { return [Emit(ReadRejected(readId, ""))]; }
      node := node.(waiting := node.waiting[readId := PendingRead({node.id}, 0, false)]);
      actions := SendAppendEntries(readId);
    }

    method HeartbeatRound() returns (actions: seq<CoreAction>)
      requires Valid()
      modifies this
      ensures Valid() && Output(Value(), actions) == HandleHeartbeat(old(Value()))
    {
      hide SendEach;
      if node.role != Leader { return []; }
      node := node.(inFlight := map[]);
      actions := SendAppendEntries(0);
      actions := [Emit(ResetHeartbeatTimer)] + actions;
    }

    method CheckQuorum() returns (actions: seq<CoreAction>)
      requires Valid()
      modifies this
      ensures Valid() && Output(Value(), actions) == Quiet(old(Value()), OnCheckQuorum(old(node)))
    {
      NoneEmitted();
      if node.role != Leader { return []; }
      if |node.activePeers| + 1 < Quorum(node) {
        var t := node.term;
        BecomeFollower(t, "");
        TwoEmits(ResetElectionTimer, LostLeadership(t));
        return [Emit(ResetElectionTimer), Emit(LostLeadership(t))];
      }
      node := node.(activePeers := {});
      EmitOne(ResetCheckQuorumTimer);
      return [Emit(ResetCheckQuorumTimer)];
    }

    method HandleAppendFailed(to: NodeId, requestId: nat)
      requires Valid()
      modifies this`node
      ensures Valid() && node == OnAppendFailed(old(node), to, requestId).node
    {
      hide OnAppendFailed;
      FailedIs(node, to, requestId);
      var appends, snapshots := node.inFlight, node.snapInFlight;
      if Get(appends, to, InFlight(0, 0)).requestId == requestId { appends := appends - {to}; }
      if Get(snapshots, to, 0) == requestId { snapshots := snapshots - {to}; }
      node := node.(inFlight := appends, snapInFlight := snapshots);
    }

    // ------------------------------------------------------------ requests of a Leader

    /** The sender is the Leader of this Term. */
    method RecogniseLeader(t: nat, from: NodeId) returns (changed: bool)
      requires Valid() && node.term <= t
      modifies this`node
      ensures Valid() && changed == (t > old(node).term) && node == Recognise(old(node), t, from)
    {
      changed := t > node.term;
      if changed {
        BecomeFollower(t, from);
      } else {
        node := node.(role := Follower, leaderId := from, readReady := false);
      }
      node := node.(recentContact := true);
    }

    method Respond(from: NodeId, requestId: nat, success: bool, hint: Hint, readId: nat) returns (action: CoreAction)
      requires Valid()
      ensures action == Emit(Reply(node, from, requestId, success, hint, readId))
    {
      return Emit(Send(from, AppendReply(node.term, requestId, success, lastLogIndex, hint.term, hint.index, readId)));
    }

    /** Replace the log from a conflict on, or extend it. */
    method StoreNew(truncateFrom: nat, tail: seq<Entry>)
      requires Valid() && tail != [] && (truncateFrom != 0 ==> node.commit < truncateFrom <= lastLogIndex)
      modifies this`node, this`lastLogIndex, this`lastLogTerm, this`durableLogIndex
      ensures node == StoreEntries(old(node), truncateFrom, tail) && lastLogIndex == LastSent(tail)
      ensures Valid() <==> Continues(old(node), Store(truncateFrom, tail))
      ensures durableLogIndex == if truncateFrom != 0 then Min(old(durableLogIndex), truncateFrom - 1) else old(durableLogIndex)
    {
      if truncateFrom != 0 { TruncateLog(truncateFrom); }
      AppendEntries(tail);
    }

    method HandleAppendEntries(from: NodeId, m: Message) returns (actions: seq<CoreAction>)
      requires Valid() && m.AppendRequest?
      modifies this
      ensures Valid() <==> AppendFits(old(node), m)
      ensures var out := HandleAppend(old(Value()), from, m);
              Output(Value(), actions) == if AppendFits(old(node), m) then out else Renumbered(out, LastSent(m.entries))
    {
      hide Recognise, AppendRecognised, Continues, PlanAppend, Spec.Matches, Renumbered;
      if m.term >= node.term { RecogniseFits(node, m.term, from, m); }
      if m.term < node.term {
        var reply := Respond(from, m.requestId, false, Hint(0, 0), m.readId);
        return [reply];
      }
      var changed := RecogniseLeader(m.term, from);
      actions := AppendFromLeader(changed, from, m);
    }

    method AppendFromLeader(changed: bool, from: NodeId, m: Message) returns (actions: seq<CoreAction>)
      requires Valid() && m.AppendRequest? && node.term == m.term
      modifies this
      ensures Valid() <==> AppendFits(old(node), m)
      ensures var out := AppendRecognised(old(Value()), changed, from, m);
              Output(Value(), actions) == if AppendFits(old(node), m) then out else Renumbered(out, LastSent(m.entries))
    {
      hide PlanAppend, Continues, Renumbered, LastSent, Spec.Matches, Spec.ConflictHint, AppendStored, AdvanceFollower, AfterTerm;
      if !MatchesLog(m.prevIndex, m.prevTerm) {
        var hint := ConflictHint(m.prevIndex);
        var reply := Respond(from, m.requestId, false, hint, m.readId);
        actions := AfterTermChange(changed, [Emit(ResetElectionTimer), reply]);
        return;
      }
      var plan := EntriesToAppend(m.prevIndex, m.entries);
      if !plan.Store? { NothingStored(node, plan); }
      match plan
      case Refuse =>
        var hint := ConflictHint(m.prevIndex + 1);
        var reply := Respond(from, m.requestId, false, hint, m.readId);
        actions := AfterTermChange(changed, [Emit(ResetElectionTimer), reply]);
      case Nothing =>
        if lastLogIndex > durableLogIndex {
          actions := AfterTermChange(changed, [Emit(ResetElectionTimer)]);
        } else {
          var reply := Respond(from, m.requestId, true, Hint(0, 0), m.readId);
          actions := AdvanceFollowerCommit(m.leaderCommit, reply);
          actions := AfterTermChange(changed, [Emit(ResetElectionTimer)] + actions);
        }
      case Store(truncateFrom, tail) =>
        PlanEnds(node, m.prevIndex + 1, m.entries);
        actions := StoreFromLeader(changed, from, m, truncateFrom, tail);
    }

    method StoreFromLeader(changed: bool, from: NodeId, m: Message, truncateFrom: nat, tail: seq<Entry>) returns (actions: seq<CoreAction>)
      requires Valid() && m.AppendRequest? && tail != [] && (truncateFrom != 0 ==> node.commit < truncateFrom <= lastLogIndex)
      modifies this
      ensures Valid() <==> Continues(old(node), Store(truncateFrom, tail))
      ensures var out := AppendStored(old(Value()), changed, from, m, truncateFrom, tail);
              Output(Value(), actions) == if Continues(old(node), Store(truncateFrom, tail)) then out else Renumbered(out, LastSent(tail))
    {
      hide StoreEntries, Continues, LastSent, AfterTerm, AppendStored, Renumbered;
      StoredUnder(Value(), changed, from, m, truncateFrom, tail, LastSent(tail));
      StoreNew(truncateFrom, tail);
      actions := PersistLogEntries(truncateFrom, tail,
        FollowerAppend(m.term, from, m.requestId, lastLogIndex, m.leaderCommit, m.readId));
      actions := AfterTermChange(changed, [Emit(ResetElectionTimer)] + actions);
    }

    predicate MatchesLog(index: nat, t: nat)
      requires lastLogIndex == LastIndex(node)
      reads this
      ensures MatchesLog(index, t) == Spec.Matches(node, index, t)
    {
      (index == 0 && t == 0) || (index <= lastLogIndex && TermAt(index) == t)
    }

    method HandleInstallSnapshot(from: NodeId, m: Message, st: Staged) returns (actions: seq<CoreAction>)
      requires Valid() && m.SnapshotRequest?
      modifies this
      ensures Valid() && Output(Value(), actions) == HandleSnapshot(old(Value()), from, m, st)
    {
      hide Recognise, Spec.TermAt;
      if m.term < node.term { return [Emit(SnapReply(node, from, m, false, m.offset, false))]; }
      var changed := RecogniseLeader(m.term, from);
      if st.success && st.done && m.index > node.base {
        var retain := m.index <= lastLogIndex && TermAt(m.index) == m.snapTerm;
        actions := PersistReceivedSnapshot(from, m, st, retain);
        actions := AfterTermChange(changed, [Emit(ResetElectionTimer)] + actions);
        return;
      }
      var already := st.success && st.done && m.index <= node.base;
      actions := AfterTermChange(changed, [Emit(ResetElectionTimer), Emit(SnapReply(node, from, m, st.success, st.nextOffset, already))]);
    }

    // ----------------------------------------------------------------- replies

    method NoteAppendReply(from: NodeId, m: Message)
      requires Valid() && m.AppendReply?
      modifies this`node
      ensures Valid() && node == NoteReply(old(node), from, m)
    {
      hide Spec.NextIndexFromConflict, Get;
      var match', next: nat := node.matchIndex, 0;
      if m.success {
        var known := Get(match', from, 0);
        if m.matchIndex > known {
          known := m.matchIndex;
          match' := match'[from := known];
        }
        next := known + 1;
      } else {
        next := NextIndexFromConflict(Hint(m.conflictTerm, m.conflictIndex));
      }
      NoteReplyIs(node, from, m);
      node := node.(inFlight := node.inFlight - {from}, activePeers := node.activePeers + {from}, matchIndex := match', nextIndex := node.nextIndex[from := next]);
    }

    method HandleAppendReply(from: NodeId, m: Message) returns (actions: seq<CoreAction>)
      requires Valid() && m.AppendReply?
      modifies this
      ensures Valid() && Output(Value(), actions) == Values.HandleAppendReply(old(Value()), from, m)
    {
      hide NoteReply, ReplyNoted;
      actions := [];
      if m.term > node.term {
        actions := StepDown(m.term);
        return;
      }
      if node.role != Leader || m.term != node.term { return; }
      var pending := Get(node.inFlight, from, InFlight(0, 0));
      if pending.requestId != 0 && m.requestId != 0 && m.requestId != pending.requestId { return; }
      NoteAppendReply(from, m);
      actions := ActOnReply(from, m, pending.leaderCommit);
    }

    method ActOnReply(from: NodeId, m: Message, leaderCommit: nat) returns (actions: seq<CoreAction>)
      requires Valid() && m.AppendReply?
      modifies this
      ensures Valid() && Output(Value(), actions) == ReplyNoted(old(Value()), from, m, leaderCommit)
    {
      hide SendEach, SendOne, LeaderCommit, AckRead, Spec.PendingReadFor, Emits;
      actions := [];
      var advanced := AdvanceLeaderCommit();
      if advanced {
        actions := SendAppendEntries(0);
        actions := PersistCommitIndex(actions);
      } else {
        var readId := PendingReadFor(from);
        var durableLast := if durableLogIndex <= lastLogIndex then durableLogIndex else lastLogIndex;
        if !m.success || Get(node.nextIndex, from, 0) <= durableLast || readId != 0 || leaderCommit < node.commit {
          actions := SendAppendEntriesTo(from, readId);
        }
      }
      var read := AcknowledgeRead(from, m.readId);
      actions := actions + read;
    }

    method HandleSnapshotReply(from: NodeId, m: Message) returns (actions: seq<CoreAction>)
      requires Valid() && m.SnapshotReply?
      modifies this
      ensures Valid() && Output(Value(), actions) == Values.HandleSnapshotReply(old(Value()), from, m)
    {
      hide SendOne, Spec.PendingReadFor;
      actions := [];
      if m.term > node.term {
        actions := StepDown(m.term);
        return;
      }
      if node.role != Leader || m.term != node.term || Get(node.snapInFlight, from, 0) != m.requestId { return; }
      if !m.success {
        node := node.(snapInFlight := node.snapInFlight - {from});
        return;
      }
      if !m.done {
        return [Emit(Send(from, SnapshotRequest(node.term, m.requestId, node.base, node.baseTerm, m.nextOffset)))];
      }
      node := node.(snapInFlight := node.snapInFlight - {from},
                    matchIndex := node.matchIndex[from := Max(Get(node.matchIndex, from, 0), m.index)],
                    nextIndex := node.nextIndex[from := m.index + 1]);
      var readId := PendingReadFor(from);
      actions := SendAppendEntriesTo(from, readId);
    }

    /** The installed Snapshot becomes the start of the log. The WAL has accepted
        it, so it drops nothing committed. */
    method SnapshotPersisted(persistenceId: nat) returns (actions: seq<CoreAction>)
      requires Valid() && SnapshotReady(Value(), persistenceId)
      modifies this
      ensures Valid() && Output(Value(), actions) == Values.SnapshotPersisted(old(Value()), persistenceId)
    {
      hide Install, SnapReply, LastIndex, LastTerm, WellIndexed, Spec.TermAt;
      if persistenceId !in pendingSnapshot { return []; }
      var pending := pendingSnapshot[persistenceId];
      var m := pending.request;
      pendingSnapshot := pendingSnapshot - {persistenceId};
      InstallBase(m.index, m.snapTerm, pending.keep);
      durableCommitIndex := Max(durableCommitIndex, m.index);
      return [Emit(RestoreSnapshot(m.index, m.snapTerm)),
              Emit(SnapReply(node, pending.from, m, pending.staged.success, pending.staged.nextOffset, true))];
    }

    method InstallBase(index: nat, t: nat, keep: bool)
      requires Valid() && node.base < index
      requires if keep then index <= lastLogIndex && index <= durableLogIndex && Spec.TermAt(node, index) == t else node.commit <= index
      modifies this`node, this`lastLogIndex, this`lastLogTerm, this`durableLogIndex
      ensures Valid() && node == Install(old(node), index, t, keep) && node.commit == Max(old(node).commit, index)
      ensures durableLogIndex == if keep && node.log == [] then old(durableLogIndex) else LastIndex(node)
    {
      var first := CoveredCount(node.log, node.base, index);
      var suffix := if keep then node.log[first..] else [];
      assert suffix == Install(node, index, t, keep).log;
      SetBase(suffix, index, t);
      if !keep { lastLogIndex, lastLogTerm, durableLogIndex := index, t, index; }
      if |suffix| > 0 {
        lastLogIndex := suffix[|suffix| - 1].index;
        lastLogTerm := suffix[|suffix| - 1].term;
        durableLogIndex := lastLogIndex;
      }
    }

    method SetBase(suffix: seq<Entry>, index: nat, t: nat)
      modifies this`node
      ensures node == old(node).(log := suffix, base := index, baseTerm := t, commit := Max(old(node).commit, index), lastApplied := index)
    {
      node := node.(log := suffix, base := index, baseTerm := t, commit := Max(node.commit, index), lastApplied := index);
    }

    // ----------------------------------------------------------------------- Step

    /** The core as recovery builds it (NewNodeFromRecoveredState): a Follower
        whose log is durable and whose Snapshot is applied. */
    constructor Recovered(id: NodeId, peers: seq<NodeId>, d: Durable)
      requires d.base <= d.commit <= d.base + |d.log| && WellIndexed(d.log, d.base)
      requires forall i, j :: 0 <= i < j < |peers| ==> peers[i] != peers[j]
      ensures Valid() && Idle(Value()) && node == Restart(id, peers, d)
    {
      node := Restart(id, peers, d);
      lastLogIndex, lastLogTerm := d.base, d.baseTerm;
      durableTerm, durableVotedFor, durableCommitIndex, durableLogIndex := d.term, d.votedFor, d.commit, d.base;
      nextHardState, nextLog, nextCommit, nextSnapshot := 0, 0, 0, 0;
      pendingHardState, pendingLog, pendingCommit, pendingSnapshot := map[], map[], map[], map[];
      if |d.log| > 0 {
        lastLogIndex, lastLogTerm := d.log[|d.log| - 1].index, d.log[|d.log| - 1].term;
        durableLogIndex := d.log[|d.log| - 1].index;
      }
    }

    method HandleMessage(from: NodeId, m: Message) returns (actions: seq<CoreAction>)
      requires Valid()
      modifies this
      ensures var out := Values.HandleMessage(old(Value()), from, m);
              if m.AppendRequest? && !AppendFits(old(node), m)
              then !Valid() && Output(Value(), actions) == Renumbered(out, LastSent(m.entries))
              else Valid() && Output(Value(), actions) == out
    {
      hide AppendFits, Renumbered, LastSent, Values.HandlePreVoteReply, Values.HandleVoteRequest, Values.HandleVoteReply, HandleAppend, Values.HandleAppendReply, Values.HandleSnapshotReply;
      match m
      case PreVoteRequest(_, _, _) => actions := HandlePreVoteRequest(from, m);
      case PreVoteReply(_, _, _) => actions := HandlePreVoteReply(from, m);
      case VoteRequest(_, _, _) => actions := HandleVoteRequest(from, m);
      case VoteReply(_, _) => actions := HandleVoteReply(from, m);
      case AppendRequest(_, _, _, _, _, _, _) => actions := HandleAppendEntries(from, m);
      case AppendReply(_, _, _, _, _, _, _) => actions := HandleAppendReply(from, m);
      case SnapshotReply(_, _, _, _, _, _) => actions := HandleSnapshotReply(from, m);
      case SnapshotRequest(_, _, _, _, _) => actions := [];
    }

    /** One event from outside; a compaction needs the applied log to be durable.
        Entries that do not continue the log leave the core with a wrong end of
        its log, and nothing else wrong. */
    method Step(ev: Event) returns (actions: seq<CoreAction>)
      requires Valid()
      requires ev.SnapshotCompacted? ==> node.lastApplied <= durableLogIndex
      modifies this
      ensures Valid() <==> Fits(old(node), ev)
      ensures Fits(old(node), ev) ==> Output(Value(), actions) == Handle(old(Value()), ev)
      ensures !Fits(old(node), ev) ==> Output(Value(), actions) == Renumbered(Handle(old(Value()), ev), LastSent(ev.msg.entries))
    {
      hide AppendFits, Renumbered, LastSent, HandleElectionTimeout, HandleHeartbeat, OnCheckQuorum, OnCompacted, HandlePropose, HandleConfirmRead, OnAppendFailed, Values.HandleMessage, HandleSnapshot, Spec.ApplyThrough;
      actions := [];
      match ev
      case ElectionTimeout => actions := StartPreVote();
      case HeartbeatTimeout => actions := HeartbeatRound();
      case CheckQuorumTimeout => actions := CheckQuorum();
      case RecoverCommitted => actions := ApplyThrough(durableCommitIndex);
      case SnapshotCompacted(index, t) =>
        QuietShapes(node, index, t, "", 0);
        CompactLog(index, t);
      case ProposeSession(_, _, _) => actions := HandleProposal(ev);
      case ProposeSet(_, _, _, _, _) => actions := HandleProposal(ev);
      case ProposeDelete(_, _, _, _) => actions := HandleProposal(ev);
      case ConfirmRead(readId) => actions := ConfirmRead(readId);
      case AppendFailed(to, requestId) =>
        QuietShapes(node, 0, 0, to, requestId);
        HandleAppendFailed(to, requestId);
      case Receive(from, m) => actions := HandleMessage(from, m);
      case ReceiveSnapshot(from, m, st) => if m.SnapshotRequest? { actions := HandleInstallSnapshot(from, m, st); }
    }

    /** The completion of one persistence action. */
    method Completed(a: CoreAction) returns (actions: seq<CoreAction>)
      requires Valid() && !a.Emit? && (a.PersistSnapshot? ==> SnapshotReady(Value(), a.id))
      modifies this
      ensures Valid() && Orderly(old(Value())) && Output(Value(), actions) == Complete(old(Value()), a)
    {
      hide HardPersisted, LogPersisted, CommitPersisted, Values.SnapshotPersisted;
      match a
      case PersistHardState(persistenceId, _, _) => actions := HardStatePersisted(persistenceId);
      case PersistLog(persistenceId, _, _) => actions := LogEntriesPersisted(persistenceId);
      case PersistCommit(persistenceId, _) => actions := CommitIndexPersisted(persistenceId);
      case PersistSnapshot(persistenceId, _, _, _) => actions := SnapshotPersisted(persistenceId);
    }
  }

  lemma EmitsSnoc(shown: seq<Action>, a: Action)
    ensures Emits(shown + [a]) == Emits(shown) + [Emit(a)]
  {
  }

  /** What is still to come after `shown` completes the reads. */
  ghost predicate ReadsLeft(before: Node, n: Node, shown: seq<Action>, rest: seq<nat>) {
    && n == before.(waiting := n.waiting) && Increasing(rest)
    && (forall r :: r in ReadyReads(n) ==> r in rest)
    && var left := Spec.CompleteReads(n); Spec.CompleteReads(before) == Effect(left.node, shown + left.actions)
  }

  lemma ReadsStart(n: Node, ids: seq<nat>)
    requires Increasing(ids) && forall r: nat :: r in ids <==> r in n.waiting.Keys
    ensures ReadsLeft(n, n, [], ids[0..]) && Emits([]) == []
  {
    assert ids[0..] == ids;
    assert [] + Spec.CompleteReads(n).actions == Spec.CompleteReads(n).actions;
  }

  lemma ReadsNext(before: Node, n: Node, shown: seq<Action>, rest: seq<nat>)
    requires ReadsLeft(before, n, shown, rest) && rest != []
    ensures if ReadIsReady(n, rest[0])
            then ReadsLeft(before, n.(waiting := n.waiting - {rest[0]}), shown + [ReadConfirmed(rest[0], n.waiting[rest[0]].commitIndex)], rest[1..])
            else ReadsLeft(before, n, shown, rest[1..])
  {
    var ready := ReadyReads(n);
    if ReadIsReady(n, rest[0]) {
      assert rest[0..] == rest;
      FirstIsLeast(rest, 0, ready);
      var n' := n.(waiting := n.waiting - {rest[0]});
      assert ReadyReads(n') == ready - {rest[0]};
      var a := ReadConfirmed(rest[0], n.waiting[rest[0]].commitIndex);
      var left := Spec.CompleteReads(n');
      assert shown + ([a] + left.actions) == shown + [a] + left.actions;
    }
  }

  lemma ReadsEnd(before: Node, n: Node, shown: seq<Action>, rest: seq<nat>)
    requires ReadsLeft(before, n, shown, rest) && rest == []
    ensures Spec.CompleteReads(before) == Effect(n, shown)
  {
    assert ReadyReads(n) == {};
    assert shown + [] == shown;
  }

  ghost predicate ApplyLeft(before: Node, n: Node, index: nat, shown: seq<Action>) {
    var left := Spec.ApplyThrough(n, index); Spec.ApplyThrough(before, index) == Effect(left.node, shown + left.actions)
  }

  lemma ApplyStart(n: Node, index: nat)
    ensures ApplyLeft(n, n, index, []) && Emits([]) == []
  {
    assert [] + Spec.ApplyThrough(n, index).actions == Spec.ApplyThrough(n, index).actions;
  }

  lemma ApplyNext(before: Node, n: Node, index: nat, shown: seq<Action>)
    requires ApplyLeft(before, n, index, shown) && n.lastApplied < index && n.base <= n.lastApplied < LastIndex(n)
    ensures ApplyLeft(before, ApplyOne(n).node, index, shown + ApplyOne(n).actions)
  {
    hide ApplyOne;
    var one := ApplyOne(n);
    var rest := Spec.ApplyThrough(one.node, index);
    assert shown + (one.actions + rest.actions) == shown + one.actions + rest.actions;
  }

  lemma ApplyEnd(before: Node, n: Node, index: nat, shown: seq<Action>)
    requires ApplyLeft(before, n, index, shown) && index <= n.lastApplied
    ensures var done := Spec.CompleteReads(n); Spec.ApplyThrough(before, index) == Effect(done.node, shown + done.actions)
  {
  }

  lemma FirstIsLeast(ids: seq<nat>, i: nat, ready: set<nat>)
    requires Increasing(ids) && i < |ids| && ids[i] in ready && forall r :: r in ready ==> r in ids[i..]
    ensures ready != {} && Least(ready) == ids[i]
  {
    forall r | r in ready ensures ids[i] <= r {
      var j :| 0 <= j < |ids[i..]| && ids[i..][j] == r;
    }
    LeastIs(ready, ids[i]);
  }

  lemma NoneEmitted()
    ensures Emits([]) == []
  {
  }

  /** The durable part ends at the durable index and reads like the whole. */
  lemma CutIs(c: Core)
    requires c.node.base <= c.durableLog
    ensures var cut, last := DurablePart(c), Min(c.durableLog, LastIndex(c.node));
            cut == c.node.(log := c.node.log[..last - c.node.base]) && LastIndex(cut) == last
  {
    var last := Min(c.durableLog, LastIndex(c.node));
    assert last == LastIndex(c.node) ==> c.node.log[..last - c.node.base] == c.node.log;
  }

  lemma CutTerm(c: Core, i: nat)
    requires c.node.base <= c.durableLog && i <= Min(c.durableLog, LastIndex(c.node))
    ensures Spec.TermAt(DurablePart(c), i) == Spec.TermAt(c.node, i)
  {
  }

  /** The requests still to come after `shown`. */
  ghost predicate SendLeft(before: Core, c: Core, rest: seq<NodeId>, readId: nat, shown: seq<Action>) {
    var left := SendAll(DurablePart(c), rest, readId);
    SendAll(DurablePart(before), before.node.peers, readId) == Effect(left.node, shown + left.actions)
  }

  lemma SendStart(c: Core, readId: nat)
    ensures SendLeft(c, c, c.node.peers[0..], readId, []) && Emits([]) == []
  {
    assert c.node.peers[0..] == c.node.peers;
    var left := SendAll(DurablePart(c), c.node.peers, readId);
    assert [] + left.actions == left.actions;
  }

  /** What SendOne does, case by case. */
  predicate Busy(n: Node, peer: NodeId) { Get(n.inFlight, peer, InFlight(0, 0)).requestId != 0 }

  /** The index from which a peer is served, never beyond what is durable. */
  function ServedFrom(n: Node, peer: NodeId, last: nat): nat {
    var wanted := Get(n.nextIndex, peer, 0);
    if wanted == 0 || wanted > last + 1 then last + 1 else wanted
  }

  lemma SendOneNothing(c: Core, peer: NodeId, readId: nat, next: nat)
    requires c.node.base <= c.durableLog && next == ServedFrom(c.node, peer, Min(c.durableLog, LastIndex(c.node)))
    requires Busy(c.node, peer) || (next <= c.node.base && Get(c.node.snapInFlight, peer, 0) != 0)
    ensures SendOne(c, peer, readId) == Output(c, [])
  {
    hide SendOne;
    SendOneCases(c, peer, readId);
  }

  lemma SendOneSnapshot(c: Core, c': Core, peer: NodeId, readId: nat, next: nat)
    requires c.node.base <= c.durableLog && next == ServedFrom(c.node, peer, Min(c.durableLog, LastIndex(c.node)))
    requires !Busy(c.node, peer) && next <= c.node.base && Get(c.node.snapInFlight, peer, 0) == 0
    requires var n, id := c.node, c.node.nextRequest + 1;
             c' == c.(node := n.(nextRequest := id, snapInFlight := n.snapInFlight[peer := id]))
    ensures SendOne(c, peer, readId) ==
              Output(c', [Emit(Send(peer, SnapshotRequest(c.node.term, c.node.nextRequest + 1, c.node.base, c.node.baseTerm, 0)))])
  {
    hide SendOne;
    SendOneCases(c, peer, readId);
  }

  lemma SendOneEntries(c: Core, c': Core, peer: NodeId, readId: nat, next: nat, last: nat)
    requires c.node.base <= c.durableLog && last == Min(c.durableLog, LastIndex(c.node)) && next == ServedFrom(c.node, peer, last)
    requires !Busy(c.node, peer) && next > c.node.base
    requires var n, id := c.node, c.node.nextRequest + 1;
             c' == c.(node := n.(nextRequest := id, inFlight := n.inFlight[peer := InFlight(id, n.commit)]))
    ensures var n := c.node;
            SendOne(c, peer, readId) ==
              Output(c', [Emit(Send(peer, AppendRequest(n.term, n.nextRequest + 1, next - 1, Spec.TermAt(n, next - 1),
                                                        Spec.EntriesBatch(n.(log := n.log[..last - n.base]), next), n.commit, readId)))])
  {
    hide SendOne, Spec.EntriesBatch, Spec.TermAt, DurablePart;
    SendOneCases(c, peer, readId);
    CutIs(c);
  }

  lemma SendOneCases(c: Core, peer: NodeId, readId: nat)
    requires c.node.base <= c.durableLog
    ensures var n, last, id := c.node, Min(c.durableLog, LastIndex(c.node)), c.node.nextRequest + 1;
            var wanted := Get(n.nextIndex, peer, 0);
            var next := if wanted == 0 || wanted > last + 1 then last + 1 else wanted;
            SendOne(c, peer, readId) ==
              if Get(n.inFlight, peer, InFlight(0, 0)).requestId != 0 then Output(c, [])
              else if next <= n.base then
                if Get(n.snapInFlight, peer, 0) != 0 then Output(c, [])
                else Output(c.(node := n.(nextRequest := id, snapInFlight := n.snapInFlight[peer := id])),
                            [Emit(Send(peer, SnapshotRequest(n.term, id, n.base, n.baseTerm, 0)))])
              else Output(c.(node := n.(nextRequest := id, inFlight := n.inFlight[peer := InFlight(id, n.commit)])),
                          [Emit(Send(peer, AppendRequest(n.term, id, next - 1, Spec.TermAt(n, next - 1),
                                                         Spec.EntriesBatch(DurablePart(c), next), n.commit, readId)))])
  {
    hide Spec.EntriesBatch, Spec.TermAt, DurablePart, Sent, Emits;
    var n, last, id := c.node, Min(c.durableLog, LastIndex(c.node)), c.node.nextRequest + 1;
    var wanted := Get(n.nextIndex, peer, 0);
    var next := if wanted == 0 || wanted > last + 1 then last + 1 else wanted;
    CutIs(c);
    CutTerm(c, next - 1);
    var cut := DurablePart(c);
    if Get(n.inFlight, peer, InFlight(0, 0)).requestId != 0 {
      SentNothing(c, cut);
    } else if next <= n.base {
      SentNothing(c, cut);
      SentRequest(c, cut, cut.(nextRequest := id, snapInFlight := n.snapInFlight[peer := id]), Send(peer, SnapshotRequest(n.term, id, n.base, n.baseTerm, 0)));
    } else {
      SentRequest(c, cut, cut.(nextRequest := id, inFlight := n.inFlight[peer := InFlight(id, n.commit)]),
        Send(peer, AppendRequest(n.term, id, next - 1, Spec.TermAt(n, next - 1), Spec.EntriesBatch(cut, next), n.commit, readId)));
    }
  }

  lemma SentNothing(c: Core, cut: Node)
    requires cut == c.node.(log := cut.log)
    ensures Sent(c, Effect(cut, [])) == Output(c, [])
  {
    NoneEmitted();
  }

  lemma SentRequest(c: Core, cut: Node, n': Node, a: Action)
    requires cut == c.node.(log := cut.log)
    requires n' == cut.(nextRequest := n'.nextRequest, snapInFlight := n'.snapInFlight, inFlight := n'.inFlight)
    ensures Sent(c, Effect(n', [a])) ==
              Output(c.(node := c.node.(nextRequest := n'.nextRequest, snapInFlight := n'.snapInFlight, inFlight := n'.inFlight)), [Emit(a)])
  {
    EmitOne(a);
  }

  lemma PendingSame(n: Node, n': Node, peer: NodeId)
    requires n'.waiting == n.waiting
    ensures Spec.PendingReadFor(n', peer) == Spec.PendingReadFor(n, peer)
  {
  }

  lemma SendNext(before: Core, c: Core, rest: seq<NodeId>, readId: nat, shown: seq<Action>)
    requires SendLeft(before, c, rest, readId, shown) && rest != [] && c.node.base <= c.durableLog
    ensures var carried := if readId == 0 then Spec.PendingReadFor(c.node, rest[0]) else readId;
            var one := SendTo(DurablePart(c), rest[0], carried);
            SendLeft(before, SendOne(c, rest[0], carried).core, rest[1..], readId, shown + one.actions)
  {
    hide SendTo, Spec.PendingReadFor, DurablePart;
    var carried := if readId == 0 then Spec.PendingReadFor(c.node, rest[0]) else readId;
    var one := SendTo(DurablePart(c), rest[0], carried);
    CutIs(c);
    PendingSame(c.node, DurablePart(c), rest[0]);
    CutAfter(c, rest[0], carried);
    var left := SendAll(one.node, rest[1..], readId);
    assert shown + (one.actions + left.actions) == shown + one.actions + left.actions;
  }

  /** Sending from the durable part moves the durable part along. */
  lemma CutAfter(c: Core, peer: NodeId, readId: nat)
    requires c.node.base <= c.durableLog
    ensures DurablePart(SendOne(c, peer, readId).core) == SendTo(DurablePart(c), peer, readId).node
  {
    hide SendTo;
    var one := SendTo(DurablePart(c), peer, readId);
    SendToSilent(DurablePart(c), peer, readId);
    var c' := SendOne(c, peer, readId).core;
    CutIs(c);
    CutIs(c');
    assert one.node.(log := c.node.log).(log := one.node.log) == one.node;
  }

  lemma SendEnd(before: Core, c: Core, rest: seq<NodeId>, readId: nat, shown: seq<Action>)
    requires SendLeft(before, c, rest, readId, shown) && rest == [] && c == before.(node := c.node) && c.node.log == before.node.log
    requires c.node.base <= c.durableLog && before.node.base <= before.durableLog
    ensures Output(c, Emits(shown)) == SendEach(before, readId)
  {
    hide SendAll, Emits;
    SendNone(DurablePart(c), readId);
    SendAllSilent(DurablePart(before), before.node.peers, readId);
    assert shown + [] == shown;
    assert DurablePart(c).(log := before.node.log) == c.node;
  }

  lemma SendNone(n: Node, readId: nat)
    ensures SendAll(n, [], readId) == Effect(n, [])
  {
  }

  lemma FailedIs(n: Node, to: NodeId, requestId: nat)
    ensures OnAppendFailed(n, to, requestId).node ==
              n.(inFlight := if Get(n.inFlight, to, InFlight(0, 0)).requestId == requestId then n.inFlight - {to} else n.inFlight,
                 snapInFlight := if Get(n.snapInFlight, to, 0) == requestId then n.snapInFlight - {to} else n.snapInFlight)
  {
  }

  lemma NoteReplyIs(n: Node, from: NodeId, m: Message)
    requires m.AppendReply?
    ensures NoteReply(n, from, m) ==
              n.(inFlight := n.inFlight - {from}, activePeers := n.activePeers + {from},
                 matchIndex := if m.success && m.matchIndex > Get(n.matchIndex, from, 0) then n.matchIndex[from := m.matchIndex] else n.matchIndex,
                 nextIndex := n.nextIndex[from := if m.success then Max(Get(n.matchIndex, from, 0), m.matchIndex) + 1
                                                  else Spec.NextIndexFromConflict(n, Hint(m.conflictTerm, m.conflictIndex))])
  {
    hide Spec.NextIndexFromConflict;
  }

  lemma IndexedConcat(log: seq<Entry>, tail: seq<Entry>, base: nat)
    requires WellIndexed(log, base)
    ensures WellIndexed(log + tail, base) <==> WellIndexed(tail, base + |log|)
  {
    if WellIndexed(log + tail, base) {
      forall i | 0 <= i < |tail| ensures tail[i].index == base + |log| + i + 1 { assert (log + tail)[|log| + i] == tail[i]; }
    }
  }

  lemma RecogniseFits(n: Node, t: nat, from: NodeId, m: Message)
    requires n.term <= t == m.term && m.AppendRequest?
    ensures var n' := Recognise(n, t, from); n'.term == t && AppendFits(n', m) == AppendFits(n, m)
  {
    var n' := Recognise(n, t, from);
    assert n'.log == n.log && n'.base == n.base && n'.baseTerm == n.baseTerm && n'.commit == n.commit;
    SamePlan(n, n', m.prevIndex + 1, m.entries);
  }

  lemma {:induction false} SamePlan(n: Node, n': Node, want: nat, entries: seq<Entry>)
    requires n'.log == n.log && n'.base == n.base && n'.baseTerm == n.baseTerm && n'.commit == n.commit
    ensures PlanAppend(n', want, entries) == PlanAppend(n, want, entries)
    decreases |entries|
  {
    if entries != [] { SamePlan(n, n', want + 1, entries[1..]); }
  }

  /** What a plan stores replaces the uncommitted end of the log, and ends as the
      request does. */
  lemma {:induction false} PlanEnds(n: Node, want: nat, entries: seq<Entry>)
    requires 0 < want
    ensures var plan := PlanAppend(n, want, entries);
            plan.Store? ==> plan.tail != [] && (plan.truncateFrom != 0 ==> n.commit < plan.truncateFrom <= LastIndex(n))
                            && LastSent(plan.tail) == LastSent(entries)
    decreases |entries|
  {
    if entries != [] && entries[0].index == want && want <= LastIndex(n) && Spec.TermAt(n, want) == entries[0].term {
      PlanEnds(n, want + 1, entries[1..]);
    }
  }

  lemma NothingStored(n: Node, plan: Plan)
    requires !plan.Store?
    ensures Continues(n, plan)
  {
  }

  /** Storing entries with the end of the log taken to be at `last`. */
  lemma StoredUnder(c: Core, changed: bool, from: NodeId, m: Message, truncateFrom: nat, tail: seq<Entry>, last: nat)
    requires m.AppendRequest?
    ensures var n' := StoreEntries(c.node, truncateFrom, tail);
            var c2 := c.(node := n', durableLog := if truncateFrom != 0 then Min(c.durableLog, truncateFrom - 1) else c.durableLog);
            var out := AppendStored(c, changed, from, m, truncateFrom, tail);
            var right := AskLog(c2, truncateFrom, tail, FollowerAppend(m.term, from, m.requestId, LastIndex(n'), m.leaderCommit, m.readId));
            var ask := AskLog(c2, truncateFrom, tail, FollowerAppend(m.term, from, m.requestId, last, m.leaderCommit, m.readId));
            && out == AfterTerm(right.core, changed, [Emit(ResetElectionTimer)] + right.queue)
            && Renumbered(out, last) == AfterTerm(ask.core, changed, [Emit(ResetElectionTimer)] + ask.queue)
  {
    hide StoreEntries;
  }

  /** What a Leader sends fits. */
  lemma ContiguousFits(n: Node, m: Message)
    requires m.AppendRequest? && Contiguous(m.entries)
    ensures AppendFits(n, m)
  {
    hide PlanAppend, Contiguous;
    PlanIndexed(n, m.prevIndex + 1, m.entries);
  }

  /** What a Follower stores continues its log. */
  lemma {:induction false} PlanIndexed(n: Node, want: nat, entries: seq<Entry>)
    requires Contiguous(entries) && 0 < want
    ensures var plan := PlanAppend(n, want, entries);
            plan.Store? ==> plan.tail != [] && (plan.truncateFrom != 0 ==> n.commit < plan.truncateFrom <= LastIndex(n))
                            && WellIndexed(plan.tail, if plan.truncateFrom != 0 then plan.truncateFrom - 1 else LastIndex(n))
    decreases |entries|
  {
    if entries != [] && entries[0].index == want {
      ContiguousIndexed(entries);
      if want <= LastIndex(n) && Spec.TermAt(n, want) == entries[0].term {
        PlanIndexed(n, want + 1, entries[1..]);
      }
    }
  }

  lemma {:induction false} ContiguousIndexed(entries: seq<Entry>)
    requires Contiguous(entries) && entries != [] && 0 < entries[0].index
    ensures WellIndexed(entries, entries[0].index - 1)
    decreases |entries|
  {
    if |entries| > 1 {
      ContiguousIndexed(entries[..|entries| - 1]);
      forall i | 0 <= i < |entries| ensures entries[i].index == entries[0].index + i {
        if i < |entries| - 1 {
          assert entries[..|entries| - 1][i] == entries[i];
        } else {
          assert entries[..|entries| - 1][i - 1] == entries[i - 1];
        }
      }
    }
  }

  lemma QuietShapes(n: Node, index: nat, t: nat, to: NodeId, requestId: nat)
    ensures OnCompacted(n, index, t).actions == [] && OnAppendFailed(n, to, requestId).actions == [] && Emits([]) == []
  {
  }
}
