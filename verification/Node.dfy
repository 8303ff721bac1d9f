/** One Node between runtime steps, and what one complete runtime step does to
    it: the handlers of internal/raft/raft.go with every persistence action
    already carried out, in the order internal/node/raft_runtime.go drains them.
    Runtime.dfy shows that the drained core behaves exactly like this. */
module Node {
  import opened Types
  import opened Messages

  const MAX_APPEND_BYTES: nat := 0x100000 + 0x1000

  datatype InFlight = InFlight(requestId: nat, leaderCommit: nat)

  datatype PendingRead = PendingRead(acks: set<NodeId>, commitIndex: nat, confirmed: bool)

  datatype Node = Node(
    id: NodeId,
    peers: seq<NodeId>,
    role: Role,
    term: nat,
    votedFor: NodeId,
    leaderId: NodeId,
    base: nat,
    baseTerm: nat,
    log: seq<Entry>,
    commit: nat,
    lastApplied: nat,
    readReady: bool,
    votes: set<NodeId>,
    preVotes: set<NodeId>,
    activePeers: set<NodeId>,
    matchIndex: map<NodeId, nat>,
    nextIndex: map<NodeId, nat>,
    inFlight: map<NodeId, InFlight>,
    snapInFlight: map<NodeId, nat>,
    nextRequest: nat,
    waiting: map<nat, PendingRead>,
    recentContact: bool)

  datatype StepResult = StepResult(node: Node, writes: seq<Write>, actions: seq<Action>)

  /** A Node paired with the effects a helper produced on the way. */
  datatype Effect = Effect(node: Node, actions: seq<Action>)

  // ----------------------------------------------------------------- the log

  function LastIndex(n: Node): nat { n.base + |n.log| }

  function LastTerm(n: Node): nat { if n.log == [] then n.baseTerm else n.log[|n.log| - 1].term }

  function TermAt(n: Node, index: nat): nat {
    if index == n.base then n.baseTerm
    else if index <= n.base || index > LastIndex(n) then 0
    else n.log[index - n.base - 1].term
  }

  predicate Matches(n: Node, index: nat, term: nat) {
    (index == 0 && term == 0) || (index <= LastIndex(n) && TermAt(n, index) == term)
  }

  /** Step back from `first` while the Term stays the same and entries are retained. */
  function FirstOfTerm(n: Node, first: nat, term: nat): nat {
    if first > n.base + 1 && TermAt(n, first - 1) == term then FirstOfTerm(n, first - 1, term) else first
  }

  datatype Hint = Hint(term: nat, index: nat)

  function ConflictHint(n: Node, index: nat): Hint {
    if index == 0 || index > LastIndex(n) then Hint(0, LastIndex(n) + 1)
    else Hint(TermAt(n, index), FirstOfTerm(n, index, TermAt(n, index)))
  }

  /** The greatest index at or below `index` holding `term`, 0 when there is none. */
  function LastOfTerm(n: Node, index: nat, term: nat): nat {
    if index == 0 then 0
    else if TermAt(n, index) == term then index
    else LastOfTerm(n, index - 1, term)
  }

  function NextIndexFromConflict(n: Node, hint: Hint): nat {
    var found := if hint.term == 0 then 0 else LastOfTerm(n, LastIndex(n), hint.term);
    var next := if found != 0 then found + 1 else hint.index;
    Min(if next == 0 then 1 else next, LastIndex(n) + 1)
  }

  function EntryBytes(e: Entry): nat { 64 + |e.key| + |e.value| }

  /** How many leading entries fit one request; the first always does. */
  function BatchLength(entries: seq<Entry>, taken: nat, bytes: nat): (k: nat)
    ensures k <= |entries|
    ensures entries != [] && taken == 0 ==> k > 0
  {
    if entries == [] then 0
    else if bytes + EntryBytes(entries[0]) > MAX_APPEND_BYTES && taken > 0 then 0
    else 1 + BatchLength(entries[1..], taken + 1, bytes + EntryBytes(entries[0]))
  }

  function EntriesBatch(n: Node, first: nat): seq<Entry> {
    if first <= n.base || first > LastIndex(n) then []
    else
      var rest := n.log[first - n.base - 1..];
      rest[..BatchLength(rest, 0, 0)]
  }

  /** What a Follower must do with entries that follow a matching position. */
  datatype Plan = Refuse | Nothing | Store(truncateFrom: nat, tail: seq<Entry>)

  function PlanAppend(n: Node, want: nat, entries: seq<Entry>): Plan
    decreases |entries|
  {
    if entries == [] then Nothing
    else
      var e := entries[0];
      if e.index != want then Refuse
      else if e.index <= LastIndex(n) then
        if TermAt(n, e.index) == e.term then PlanAppend(n, want + 1, entries[1..])
        else if e.index <= n.commit then Refuse
        else Store(e.index, entries)
      else if e.index != LastIndex(n) + 1 then Refuse
      else Store(0, entries)
  }

  function StoreEntries(n: Node, truncateFrom: nat, tail: seq<Entry>): Node {
    var kept := if n.base < truncateFrom <= LastIndex(n) then n.log[..truncateFrom - n.base - 1] else n.log;
    n.(log := kept + tail)
  }

  // --------------------------------------------------------------- elections

  function Quorum(n: Node): nat { (|n.peers| + 1) / 2 + 1 }

  /** raft.go:1250-1252 */
  predicate LogIsUpToDate(candTerm: nat, candIndex: nat, localTerm: nat, localIndex: nat) {
    candTerm > localTerm || (candTerm == localTerm && candIndex >= localIndex)
  }

  function BecomeFollower(n: Node, term: nat, leader: NodeId): Node {
    n.(votedFor := if term > n.term then "" else n.votedFor,
       role := Follower, term := term, leaderId := leader, recentContact := leader != "",
       votes := {}, preVotes := {}, activePeers := {}, matchIndex := map[], nextIndex := map[],
       inFlight := map[], snapInFlight := map[], waiting := map[], readReady := false)
  }

  function Broadcast(peers: seq<NodeId>, msg: Message): seq<Action> {
    if peers == [] then [] else [Send(peers[0], msg)] + Broadcast(peers[1..], msg)
  }

  function Unchanged(n: Node): StepResult { StepResult(n, [], []) }

  /** A later Term seen in a reply: step down and persist it. */
  function StepDown(n: Node, term: nat): StepResult {
    var n' := BecomeFollower(n, term, "");
    StepResult(n', [SaveHardState(n'.term, n'.votedFor)], [])
  }

  function OnElectionTimeout(n: Node): StepResult {
    if n.role == Leader then Unchanged(n)
    else
      var n' := n.(recentContact := false, leaderId := "", role := PreCandidate, preVotes := {n.id});
      var ask := [ResetElectionTimer] + Broadcast(n.peers, PreVoteRequest(n.term + 1, LastIndex(n), LastTerm(n)));
      if Quorum(n) == 1 then
        var r := StartElection(n');
        r.(actions := ask + r.actions)
      else StepResult(n', [], ask)
  }

  function OnPreVoteRequest(n: Node, from: NodeId, m: Message): StepResult
    requires m.PreVoteRequest?
  {
    var grant := m.term >= n.term + 1 && !n.recentContact && LogIsUpToDate(m.lastTerm, m.lastIndex, LastTerm(n), LastIndex(n));
    StepResult(n, [], [Send(from, PreVoteReply(m.term, n.term, grant))])
  }

  function OnPreVoteReply(n: Node, from: NodeId, m: Message): StepResult
    requires m.PreVoteReply?
  {
    if m.currentTerm > n.term then StepDown(n, m.currentTerm)
    else if n.role != PreCandidate || m.term != n.term + 1 || !m.granted then Unchanged(n)
    else
      var n' := n.(preVotes := n.preVotes + {from});
      if |n'.preVotes| < Quorum(n') then Unchanged(n') else StartElection(n')
  }

  function StartElection(n: Node): StepResult {
    var n' := n.(role := Candidate, term := n.term + 1, votedFor := n.id, leaderId := "", readReady := false, votes := {n.id});
    StepResult(n', [SaveHardState(n'.term, n'.votedFor)],
               [ResetElectionTimer] + Broadcast(n.peers, VoteRequest(n'.term, LastIndex(n), LastTerm(n))))
  }

  function OnVoteRequest(n: Node, from: NodeId, m: Message): StepResult
    requires m.VoteRequest?
  {
    if m.term < n.term then StepResult(n, [], [Send(from, VoteReply(n.term, false))])
    else
      var raised := m.term > n.term;
      var n1 := if raised then BecomeFollower(n, m.term, "") else n;
      var grant := (n1.votedFor == "" || n1.votedFor == from) && LogIsUpToDate(m.lastTerm, m.lastIndex, LastTerm(n1), LastIndex(n1));
      var n2 := if grant then n1.(votedFor := from) else n1;
      var save := raised || (grant && n1.votedFor != from);
      StepResult(n2, if save then [SaveHardState(n2.term, n2.votedFor)] else [], [Send(from, VoteReply(n2.term, grant))])
  }

  function InitialNext(peers: seq<NodeId>, next: nat): map<NodeId, nat> {
    map p | p in peers :: next
  }

  function FirstEntry(n: Node): Entry { NoOpAt(LastIndex(n) + 1, n.term) }

  /** A Candidate as it becomes Leader, before its first requests. */
  function Officer(n: Node): Node {
    n.(role := Leader, leaderId := n.id, activePeers := {}, matchIndex := map[],
       inFlight := map[], snapInFlight := map[], readReady := false,
       log := n.log + [FirstEntry(n)], nextIndex := InitialNext(n.peers, LastIndex(n) + 2))
  }

  function OnVoteReply(n: Node, from: NodeId, m: Message): StepResult
    requires m.VoteReply?
  {
    if m.term > n.term then StepDown(n, m.term)
    else if n.role != Candidate || m.term != n.term || !m.granted then Unchanged(n)
    else
      var n1 := n.(votes := n.votes + {from});
      if |n1.votes| < Quorum(n1) then Unchanged(n1)
      else
        var noop, n2 := FirstEntry(n), Officer(n1);
        var sent := SendAll(n2, n2.peers, 0);
        StepResult(sent.node, [Append(noop)],
                   [BecameLeader(n.term), ResetHeartbeatTimer, ResetCheckQuorumTimer] + sent.actions)
  }

  function OnCheckQuorum(n: Node): StepResult {
    if n.role != Leader then Unchanged(n)
    else if |n.activePeers| + 1 < Quorum(n) then
      StepResult(BecomeFollower(n, n.term, ""), [], [ResetElectionTimer, LostLeadership(n.term)])
    else StepResult(n.(activePeers := {}), [], [ResetCheckQuorumTimer])
  }

  // ------------------------------------------------------------- replication

  /** The lowest pending read the peer has not acknowledged, 0 when there is none. */
  function PendingReadFor(n: Node, peer: NodeId): nat {
    LeastOr0(set id | id in n.waiting && peer !in n.waiting[id].acks)
  }

  predicate IsLeast(ids: set<nat>, x: nat) {
    x in ids && forall i :: i in ids ==> x <= i
  }

  function Least(ids: set<nat>): (least: nat)
    requires ids != {}
    ensures IsLeast(ids, least)
  {
    LeastExists(ids);
    var least: nat :| IsLeast(ids, least);
    least
  }

  function LeastOr0(ids: set<nat>): nat {
    if ids == {} then 0 else Least(ids)
  }

  lemma LeastExists(ids: set<nat>)
    requires ids != {}
    ensures exists least :: IsLeast(ids, least)
  {
    var x :| x in ids;
    if ids == {x} {
      assert IsLeast(ids, x);
    } else {
      var rest := ids - {x};
      assert x in ids && ids == rest + {x};
      LeastExists(rest);
      var y: nat :| IsLeast(rest, y);
      assert IsLeast(ids, if x <= y then x else y);
    }
  }

  function SendTo(n: Node, peer: NodeId, readId: nat): Effect {
    if Get(n.inFlight, peer, InFlight(0, 0)).requestId != 0 then Effect(n, [])
    else
      var wanted := Get(n.nextIndex, peer, 0);
      var next := if wanted == 0 || wanted > LastIndex(n) + 1 then LastIndex(n) + 1 else wanted;
      var id := n.nextRequest + 1;
      if next <= n.base then
        if Get(n.snapInFlight, peer, 0) != 0 then Effect(n, [])
        else
          Effect(n.(nextRequest := id, snapInFlight := n.snapInFlight[peer := id]),
                 [Send(peer, SnapshotRequest(n.term, id, n.base, n.baseTerm, 0))])
      else
        Effect(n.(nextRequest := id, inFlight := n.inFlight[peer := InFlight(id, n.commit)]),
               [Send(peer, AppendRequest(n.term, id, next - 1, TermAt(n, next - 1), EntriesBatch(n, next), n.commit, readId))])
  }

  /** One request to each peer in order; readId 0 lets each peer carry its own oldest read. */
  function SendAll(n: Node, peers: seq<NodeId>, readId: nat): Effect
    decreases |peers|
  {
    if peers == [] then Effect(n, [])
    else
      var one := SendTo(n, peers[0], if readId == 0 then PendingReadFor(n, peers[0]) else readId);
      var rest := SendAll(one.node, peers[1..], readId);
      Effect(rest.node, one.actions + rest.actions)
  }

  function OnHeartbeat(n: Node): StepResult {
    if n.role != Leader then Unchanged(n)
    else
      var sent := SendAll(n.(inFlight := map[]), n.peers, 0);
      StepResult(sent.node, [], [ResetHeartbeatTimer] + sent.actions)
  }

  function Propose(n: Node, proposalId: nat, e: Entry): StepResult {
    var sent := SendAll(n.(log := n.log + [e]), n.peers, 0);
    StepResult(sent.node, [Append(e)], [ProposalAccepted(proposalId, e.index)] + sent.actions)
  }

  function OnPropose(n: Node, ev: Event): StepResult
    requires ev.ProposeSession? || ev.ProposeSet? || ev.ProposeDelete?
  {
    if n.role != Leader then StepResult(n, [], [ProposalRejected(ev.proposalId, n.leaderId)])
    else
      var index := LastIndex(n) + 1;
      match ev
      case ProposeSession(id, kind, session) =>
        if kind != OpenSession && kind != CloseSession then Unchanged(n)
        else Propose(n, id, Entry(index, n.term, kind, session, 0, [], []))
      case ProposeSet(id, session, sequence, key, value) =>
        Propose(n, id, Entry(index, n.term, SetKey, session, sequence, key, value))
      case ProposeDelete(id, session, sequence, key) =>
        Propose(n, id, Entry(index, n.term, DeleteKey, session, sequence, key, []))
  }

  function OnConfirmRead(n: Node, readId: nat): StepResult {
    if n.role != Leader then StepResult(n, [], [ReadRejected(readId, n.leaderId)])
    else if !n.readReady then StepResult(n, [], [ReadRejected(readId, "")])
    else
      var sent := SendAll(n.(waiting := n.waiting[readId := PendingRead({n.id}, 0, false)]), n.peers, readId);
      StepResult(sent.node, [], sent.actions)
  }

  function Reply(n: Node, to: NodeId, requestId: nat, success: bool, hint: Hint, readId: nat): Action {
    Send(to, AppendReply(n.term, requestId, success, LastIndex(n), hint.term, hint.index, readId))
  }

  /** Recognise a Leader of the Node's own or a later Term. */
  function Recognise(n: Node, term: nat, from: NodeId): Node {
    var n1 := if term > n.term then BecomeFollower(n, term, from)
              else n.(role := Follower, leaderId := from, readReady := false);
    n1.(recentContact := true)
  }

  function HardStateIf(raised: bool, n: Node): seq<Write> {
    if raised then [SaveHardState(n.term, n.votedFor)] else []
  }

  function OnAppendRequest(n: Node, from: NodeId, m: Message): StepResult
    requires m.AppendRequest?
  {
    if m.term < n.term then
      StepResult(n, [], [Reply(n, from, m.requestId, false, Hint(0, 0), m.readId)])
    else
      var n1 := Recognise(n, m.term, from);
      var hs := HardStateIf(m.term > n.term, n1);
      CurrentAppend(n1, hs, from, m)
  }

  /** OnAppendRequest once the Leader is recognised. */
  function CurrentAppend(n: Node, hs: seq<Write>, from: NodeId, m: Message): StepResult
    requires m.AppendRequest?
  {
    if !Matches(n, m.prevIndex, m.prevTerm) then
      StepResult(n, hs, [ResetElectionTimer, Reply(n, from, m.requestId, false, ConflictHint(n, m.prevIndex), m.readId)])
    else
      match PlanAppend(n, m.prevIndex + 1, m.entries)
      case Refuse =>
        StepResult(n, hs, [ResetElectionTimer, Reply(n, from, m.requestId, false, ConflictHint(n, m.prevIndex + 1), m.readId)])
      case Nothing => FinishAppend(n, hs, from, m)
      case Store(truncateFrom, tail) =>
        FinishAppend(StoreEntries(n, truncateFrom, tail), hs + StoreWrites(truncateFrom, tail), from, m)
  }

  function StoreWrites(truncateFrom: nat, tail: seq<Entry>): seq<Write> {
    (if truncateFrom != 0 then [Truncate(truncateFrom)] else []) + seq(|tail|, i requires 0 <= i < |tail| => Append(tail[i]))
  }

  /** The Follower acknowledges its whole log and commits what the Leader has
      committed of it. */
  function FinishAppend(n: Node, writes: seq<Write>, from: NodeId, m: Message): StepResult
    requires m.AppendRequest?
  {
    var target := Min(m.leaderCommit, LastIndex(n));
    var reply := Reply(n, from, m.requestId, true, Hint(0, 0), m.readId);
    var n1 := if target > n.commit then n.(commit := target) else n;
    var save := if target > n.commit then [SaveCommit(target)] else [];
    var applied := ApplyThrough(n1, n1.commit);
    StepResult(applied.node, writes + save, [ResetElectionTimer] + applied.actions + [reply])
  }

  function OnAppendReply(n: Node, from: NodeId, m: Message): StepResult
    requires m.AppendReply?
  {
    if m.term > n.term then StepDown(n, m.term)
    else if n.role != Leader || m.term != n.term then Unchanged(n)
    else
      var pending := Get(n.inFlight, from, InFlight(0, 0));
      if pending.requestId != 0 && m.requestId != 0 && m.requestId != pending.requestId then Unchanged(n)
      else
        CurrentReply(n, from, m, pending.leaderCommit)
  }

  /** OnAppendReply for a reply to the current request of the current Term. */
  function CurrentReply(n: Node, from: NodeId, m: Message, leaderCommit: nat): StepResult
    requires m.AppendReply?
  {
    var n1 := NoteReply(n, from, m);
    var index := LeaderCommit(n1, LastIndex(n1));
    if index > n1.commit then
      var sent := SendAll(n1.(commit := index), n1.peers, 0);
      var read := AckRead(sent.node, from, m.readId);
      var applied := ApplyThrough(read.node, index);
      StepResult(applied.node, [SaveCommit(index)], read.actions + applied.actions + sent.actions)
    else
      var readId := PendingReadFor(n1, from);
      var sent :=
        if !m.success || Get(n1.nextIndex, from, 0) <= LastIndex(n1) || readId != 0 || leaderCommit < n1.commit
        then SendTo(n1, from, readId) else Effect(n1, []);
      var read := AckRead(sent.node, from, m.readId);
      StepResult(read.node, [], sent.actions + read.actions)
  }

  function NoteReply(n: Node, from: NodeId, m: Message): Node
    requires m.AppendReply?
  {
    var n0 := n.(inFlight := n.inFlight - {from}, activePeers := n.activePeers + {from});
    if m.success then
      var known := Max(Get(n.matchIndex, from, 0), m.matchIndex);
      n0.(matchIndex := if m.matchIndex > Get(n.matchIndex, from, 0) then n.matchIndex[from := known] else n.matchIndex,
          nextIndex := n.nextIndex[from := known + 1])
    else
      n0.(nextIndex := n.nextIndex[from := NextIndexFromConflict(n, Hint(m.conflictTerm, m.conflictIndex))])
  }

  function Replicas(n: Node, index: nat): set<NodeId> {
    set p | p in n.peers && Get(n.matchIndex, p, 0) >= index
  }

  predicate Committable(n: Node, index: nat) {
    TermAt(n, index) == n.term && 1 + |Replicas(n, index)| >= Quorum(n)
  }

  /** The greatest committable index in (n.commit, index], or n.commit. */
  function LeaderCommit(n: Node, index: nat): nat {
    if index <= n.commit then n.commit
    else if Committable(n, index) then index
    else LeaderCommit(n, index - 1)
  }

  function OnAppendFailed(n: Node, to: NodeId, requestId: nat): StepResult {
    var n1 := if Get(n.inFlight, to, InFlight(0, 0)).requestId == requestId then n.(inFlight := n.inFlight - {to}) else n;
    var n2 := if Get(n.snapInFlight, to, 0) == requestId then n1.(snapInFlight := n1.snapInFlight - {to}) else n1;
    Unchanged(n2)
  }

  // ------------------------------------------------------- applying and reads

  /** One committed entry reaches the state machine. */
  function ApplyOne(n: Node): Effect
    requires n.base <= n.lastApplied < LastIndex(n)
  {
    var e := n.log[n.lastApplied - n.base];
    var ready := n.role == Leader && !n.readReady && e.kind == NoOp && e.term == n.term;
    Effect(n.(lastApplied := n.lastApplied + 1, readReady := n.readReady || ready),
           [ApplyEntry(e)] + if ready then [BecameReadReady(n.term)] else [])
  }

  function ApplyThrough(n: Node, index: nat): Effect
    decreases index - n.lastApplied
  {
    if index <= n.lastApplied || !(n.base <= n.lastApplied < LastIndex(n)) then CompleteReads(n)
    else
      var one := ApplyOne(n);
      var rest := ApplyThrough(one.node, index);
      Effect(rest.node, one.actions + rest.actions)
  }

  predicate ReadIsReady(n: Node, id: nat) {
    id in n.waiting && n.waiting[id].confirmed && n.waiting[id].commitIndex <= n.lastApplied
  }

  function ReadyReads(n: Node): set<nat> { set id | id in n.waiting && ReadIsReady(n, id) }

  /** Answer every confirmed read the state machine has caught up with, in order. */
  function CompleteReads(n: Node): Effect
    decreases |ReadyReads(n)|
  {
    var ready := ReadyReads(n);
    if ready == {} then Effect(n, [])
    else
      var id := Least(ready);
      var n' := n.(waiting := n.waiting - {id});
      assert ReadyReads(n') == ready - {id};
      var rest := CompleteReads(n');
      Effect(rest.node, [ReadConfirmed(id, n.waiting[id].commitIndex)] + rest.actions)
  }

  function AckRead(n: Node, from: NodeId, readId: nat): Effect {
    if readId == 0 || readId !in n.waiting || n.waiting[readId].confirmed then Effect(n, [])
    else
      var acks := n.waiting[readId].acks + {from};
      if |acks| < Quorum(n) then Effect(n.(waiting := n.waiting[readId := n.waiting[readId].(acks := acks)]), [])
      else CompleteReads(n.(waiting := n.waiting[readId := PendingRead(acks, n.commit, true)]))
  }

  // ---------------------------------------------------------------- Snapshots

  function SnapReply(n: Node, to: NodeId, m: Message, success: bool, nextOffset: nat, done: bool): Action
    requires m.SnapshotRequest?
  {
    Send(to, SnapshotReply(n.term, m.requestId, m.index, success, nextOffset, done))
  }

  function OnSnapshotRequest(n: Node, from: NodeId, m: Message, st: Staged): StepResult
    requires m.SnapshotRequest?
  {
    if m.term < n.term then StepResult(n, [], [SnapReply(n, from, m, false, m.offset, false)])
    else
      var n1 := Recognise(n, m.term, from);
      var hs := HardStateIf(m.term > n.term, n1);
      if st.success && st.done && m.index > n1.base then
        var keep := m.index <= LastIndex(n1) && TermAt(n1, m.index) == m.snapTerm;
        var n2 := Install(n1, m.index, m.snapTerm, keep);
        StepResult(n2, hs + [Checkpoint(m.index, m.snapTerm, keep)],
                   [ResetElectionTimer, RestoreSnapshot(m.index, m.snapTerm), SnapReply(n2, from, m, st.success, st.nextOffset, true)])
      else
        var already := st.success && st.done && m.index <= n1.base;
        StepResult(n1, hs, [ResetElectionTimer, SnapReply(n1, from, m, st.success, st.nextOffset, already)])
  }

  function Install(n: Node, index: nat, term: nat, keep: bool): Node {
    var suffix := if keep && n.base <= index <= LastIndex(n) then n.log[index - n.base..] else [];
    n.(log := suffix, base := index, baseTerm := term, commit := Max(n.commit, index), lastApplied := index)
  }

  function OnSnapshotReply(n: Node, from: NodeId, m: Message): StepResult
    requires m.SnapshotReply?
  {
    if m.term > n.term then StepDown(n, m.term)
    else if n.role != Leader || m.term != n.term || Get(n.snapInFlight, from, 0) != m.requestId then Unchanged(n)
    else if !m.success then Unchanged(n.(snapInFlight := n.snapInFlight - {from}))
    else if !m.done then
      StepResult(n, [], [Send(from, SnapshotRequest(n.term, m.requestId, n.base, n.baseTerm, m.nextOffset))])
    else
      var n1 := n.(snapInFlight := n.snapInFlight - {from},
                   matchIndex := n.matchIndex[from := Max(Get(n.matchIndex, from, 0), m.index)],
                   nextIndex := n.nextIndex[from := m.index + 1]);
      var sent := SendTo(n1, from, PendingReadFor(n1, from));
      StepResult(sent.node, [], sent.actions)
  }

  predicate CanCompact(n: Node, index: nat, term: nat) {
    n.base < index <= n.lastApplied && TermAt(n, index) == term && index <= LastIndex(n)
  }

  function OnCompacted(n: Node, index: nat, term: nat): StepResult {
    if CanCompact(n, index, term) then
      StepResult(n.(log := n.log[index - n.base..], base := index, baseTerm := term), [Checkpoint(index, term, true)], [])
    else Unchanged(n)
  }

  // --------------------------------------------------------------- whole steps

  function OnReceive(n: Node, from: NodeId, m: Message): StepResult {
    match m
    case PreVoteRequest(_, _, _) => OnPreVoteRequest(n, from, m)
    case PreVoteReply(_, _, _) => OnPreVoteReply(n, from, m)
    case VoteRequest(_, _, _) => OnVoteRequest(n, from, m)
    case VoteReply(_, _) => OnVoteReply(n, from, m)
    case AppendRequest(_, _, _, _, _, _, _) => OnAppendRequest(n, from, m)
    case AppendReply(_, _, _, _, _, _, _) => OnAppendReply(n, from, m)
    case SnapshotReply(_, _, _, _, _, _) => OnSnapshotReply(n, from, m)
    case SnapshotRequest(_, _, _, _, _) => Unchanged(n)
  }

  function Step(n: Node, ev: Event): StepResult {
    match ev
    case ElectionTimeout => OnElectionTimeout(n)
    case HeartbeatTimeout => OnHeartbeat(n)
    case CheckQuorumTimeout => OnCheckQuorum(n)
    case RecoverCommitted => var e := ApplyThrough(n, n.commit); StepResult(e.node, [], e.actions)
    case SnapshotCompacted(index, term) => OnCompacted(n, index, term)
    case ProposeSession(_, _, _) => OnPropose(n, ev)
    case ProposeSet(_, _, _, _, _) => OnPropose(n, ev)
    case ProposeDelete(_, _, _, _) => OnPropose(n, ev)
    case ConfirmRead(id) => OnConfirmRead(n, id)
    case AppendFailed(to, id) => OnAppendFailed(n, to, id)
    case Receive(from, m) => OnReceive(n, from, m)
    case ReceiveSnapshot(from, m, st) => if m.SnapshotRequest? then OnSnapshotRequest(n, from, m, st) else Unchanged(n)
  }

  function DurableOf(n: Node): Durable {
    Durable(n.term, n.votedFor, n.base, n.baseTerm, n.log, n.commit)
  }

  /** A Node as recovery builds it: a Follower that has applied its Snapshot. */
  function Restart(id: NodeId, peers: seq<NodeId>, d: Durable): Node {
    Node(id, peers, Follower, d.term, d.votedFor, "", d.base, d.baseTerm, d.log, d.commit, d.base, false,
         {}, {}, {}, map[], map[], map[], map[], 0, map[], false)
  }
}
