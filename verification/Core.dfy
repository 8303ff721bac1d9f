/** The consensus core between persistence actions and their completions, as
    raft.Node keeps it: the Node of Node.dfy plus what is durable and what each
    outstanding persistence will release. */
module Core {
  import opened Types
  import opened Messages
  import opened Node

  /** What the core asks of its runtime: persist something, or show an effect. */
  datatype CoreAction =
    | PersistHardState(id: nat, term: nat, votedFor: NodeId)
    | PersistLog(id: nat, truncateFrom: nat, entries: seq<Entry>)
    | PersistCommit(id: nat, index: nat)
    | PersistSnapshot(id: nat, index: nat, snapTerm: nat, keep: bool)
    | Emit(action: Action)

  datatype HardPending = HardPending(term: nat, votedFor: NodeId, after: seq<CoreAction>)

  datatype LogPending =
    | LeaderEntry(term: nat, lastIndex: nat)
    | FollowerAppend(term: nat, leader: NodeId, requestId: nat, lastIndex: nat, leaderCommit: nat, readId: nat)

  datatype CommitPending = CommitPending(index: nat, after: seq<CoreAction>)

  datatype SnapshotPending = SnapshotPending(from: NodeId, request: Message, staged: Staged, keep: bool)

  datatype Core = Core(
    node: Node,
    durableTerm: nat,
    durableVotedFor: NodeId,
    durableLog: nat,
    durableCommit: nat,
    nextHard: nat,
    hard: map<nat, HardPending>,
    nextLog: nat,
    logs: map<nat, LogPending>,
    nextCommit: nat,
    commits: map<nat, CommitPending>,
    nextSnapshot: nat,
    snapshots: map<nat, SnapshotPending>)

  datatype Output = Output(core: Core, queue: seq<CoreAction>)

  function Emits(actions: seq<Action>): seq<CoreAction> {
    seq(|actions|, i requires 0 <= i < |actions| => Emit(actions[i]))
  }

  // -------------------------------------------------------- asking to persist

  function AskHard(c: Core, after: seq<CoreAction>): Output {
    var id := c.nextHard + 1;
    Output(c.(nextHard := id, hard := c.hard[id := HardPending(c.node.term, c.node.votedFor, after)]),
           [PersistHardState(id, c.node.term, c.node.votedFor)])
  }

  function AskLog(c: Core, truncateFrom: nat, entries: seq<Entry>, pending: LogPending): Output {
    var id := c.nextLog + 1;
    Output(c.(nextLog := id, logs := c.logs[id := pending]), [PersistLog(id, truncateFrom, entries)])
  }

  function AskCommit(c: Core, after: seq<CoreAction>): Output {
    var id := c.nextCommit + 1;
    Output(c.(nextCommit := id, commits := c.commits[id := CommitPending(c.node.commit, after)]),
           [PersistCommit(id, c.node.commit)])
  }

  function AskSnapshot(c: Core, from: NodeId, m: Message, st: Staged, keep: bool): Output
    requires m.SnapshotRequest?
  {
    var id := c.nextSnapshot + 1;
    Output(c.(nextSnapshot := id, snapshots := c.snapshots[id := SnapshotPending(from, m, st, keep)]),
           [PersistSnapshot(id, m.index, m.snapTerm, keep)])
  }

  /** Ask for the hard state first when the Term changed. */
  function AfterTerm(c: Core, changed: bool, after: seq<CoreAction>): Output {
    if changed then AskHard(c, after) else Output(c, after)
  }

  // ------------------------------------------------------------- durable sending

  /** The Node as far as its log is durable. */
  function DurablePart(c: Core): Node {
    if c.node.base <= c.durableLog < LastIndex(c.node) then c.node.(log := c.node.log[..c.durableLog - c.node.base]) else c.node
  }

  function Sent(c: Core, e: Effect): Output {
    Output(c.(node := e.node.(log := c.node.log)), Emits(e.actions))
  }

  function SendOne(c: Core, peer: NodeId, readId: nat): Output { Sent(c, SendTo(DurablePart(c), peer, readId)) }

  function SendEach(c: Core, readId: nat): Output { Sent(c, SendAll(DurablePart(c), c.node.peers, readId)) }

  // ------------------------------------------------------------------- completions

  function HardPersisted(c: Core, id: nat): Output {
    if id !in c.hard then Output(c, [])
    else
      var p := c.hard[id];
      var c' := c.(hard := c.hard - {id}, durableTerm := p.term, durableVotedFor := p.votedFor);
      Output(c', if p.term != c.node.term || p.votedFor != c.node.votedFor then [] else p.after)
  }

  function LogPersisted(c: Core, id: nat): Output {
    if id !in c.logs then Output(c, [])
    else
      var p := c.logs[id];
      var c' := c.(logs := c.logs - {id}, durableLog := Max(c.durableLog, p.lastIndex));
      match p
      case LeaderEntry(term, lastIndex) =>
        if c.node.role != Leader || c.node.term != term || LastIndex(c.node) < lastIndex then Output(c', [])
        else SendEach(c', 0)
      case FollowerAppend(term, leader, requestId, lastIndex, leaderCommit, readId) =>
        if c.node.term != term || c.node.role != Follower || c.node.leaderId != leader then Output(c', [])
        else AdvanceFollower(c', leaderCommit,
               Emit(Send(leader, AppendReply(c.node.term, requestId, true, lastIndex, 0, 0, readId))))
  }

  function AdvanceFollower(c: Core, leaderCommit: nat, reply: CoreAction): Output {
    var target := Min(leaderCommit, LastIndex(c.node));
    if target > c.node.commit then AskCommit(c.(node := c.node.(commit := target)), [reply])
    else
      var applied := ApplyThrough(c.node, c.durableCommit);
      Output(c.(node := applied.node), Emits(applied.actions) + [reply])
  }

  function CommitPersisted(c: Core, id: nat): Output {
    if id !in c.commits then Output(c, [])
    else
      var p := c.commits[id];
      var applied := ApplyThrough(c.node, p.index);
      Output(c.(commits := c.commits - {id}, durableCommit := Max(c.durableCommit, p.index), node := applied.node),
             Emits(applied.actions) + p.after)
  }

  function SnapshotPersisted(c: Core, id: nat): Output
    requires id in c.snapshots ==> c.snapshots[id].request.SnapshotRequest?
  {
    if id !in c.snapshots then Output(c, [])
    else
      var p := c.snapshots[id];
      var n := Install(c.node, p.request.index, p.request.snapTerm, p.keep);
      Output(c.(snapshots := c.snapshots - {id}, node := n, durableCommit := Max(c.durableCommit, p.request.index),
                durableLog := if p.keep && n.log == [] then c.durableLog else LastIndex(n)),
             [Emit(RestoreSnapshot(p.request.index, p.request.snapTerm)),
              Emit(SnapReply(n, p.from, p.request, p.staged.success, p.staged.nextOffset, true))])
  }

  // ------------------------------------------------------------------------ events

  function Quiet(c: Core, r: StepResult): Output { Output(c.(node := r.node), Emits(r.actions)) }

  function StepDownTo(c: Core, term: nat): Output { AskHard(c.(node := BecomeFollower(c.node, term, "")), []) }

  function StandForElection(c: Core): Output {
    var r := StartElection(c.node);
    AskHard(c.(node := r.node), Emits(r.actions))
  }

  function HandleElectionTimeout(c: Core): Output {
    if c.node.role == Leader then Output(c, [])
    else
      var n := c.node.(recentContact := false, leaderId := "", role := PreCandidate, preVotes := {c.node.id});
      var ask := [Emit(ResetElectionTimer)]
               + Emits(Broadcast(n.peers, PreVoteRequest(n.term + 1, LastIndex(n), LastTerm(n))));
      if Quorum(n) == 1 then
        var stand := StandForElection(c.(node := n));
        Output(stand.core, ask + stand.queue)
      else Output(c.(node := n), ask)
  }

  function HandlePreVoteReply(c: Core, from: NodeId, m: Message): Output
    requires m.PreVoteReply?
  {
    if m.currentTerm > c.node.term then StepDownTo(c, m.currentTerm)
    else if c.node.role != PreCandidate || m.term != c.node.term + 1 || !m.granted then Output(c, [])
    else
      var c' := c.(node := c.node.(preVotes := c.node.preVotes + {from}));
      if |c'.node.preVotes| < Quorum(c'.node) then Output(c', []) else StandForElection(c')
  }

  function HandleVoteRequest(c: Core, from: NodeId, m: Message): Output
    requires m.VoteRequest?
  {
    if m.term < c.node.term then Output(c, [Emit(Send(from, VoteReply(c.node.term, false)))])
    else
      var changed := m.term > c.node.term;
      var n1 := if changed then BecomeFollower(c.node, m.term, "") else c.node;
      var grant := (n1.votedFor == "" || n1.votedFor == from) && LogIsUpToDate(m.lastTerm, m.lastIndex, LastTerm(n1), LastIndex(n1));
      var n2 := if grant then n1.(votedFor := from) else n1;
      var durable := c.durableTerm == n2.term && c.durableVotedFor == from;
      AfterTerm(c.(node := n2), changed || (grant && !durable), [Emit(Send(from, VoteReply(n2.term, grant)))])
  }

  function HandleVoteReply(c: Core, from: NodeId, m: Message): Output
    requires m.VoteReply?
  {
    if m.term > c.node.term then StepDownTo(c, m.term)
    else if c.node.role != Candidate || m.term != c.node.term || !m.granted then Output(c, [])
    else
      var n1 := c.node.(votes := c.node.votes + {from});
      if |n1.votes| < Quorum(n1) then Output(c.(node := n1), []) else Office(c.(node := n1))
  }

  /** A Candidate with a majority becomes Leader and writes its no-op. */
  function Office(c: Core): Output {
    var noop := FirstEntry(c.node);
    var ask := AskLog(c.(node := Officer(c.node)), 0, [noop], LeaderEntry(c.node.term, noop.index));
    Output(ask.core, [Emit(BecameLeader(c.node.term)), Emit(ResetHeartbeatTimer), Emit(ResetCheckQuorumTimer)] + ask.queue)
  }

  function ProposeEntry(c: Core, proposalId: nat, e: Entry): Output {
    var ask := AskLog(c.(node := c.node.(log := c.node.log + [e])), 0, [e], LeaderEntry(c.node.term, e.index));
    Output(ask.core, [Emit(ProposalAccepted(proposalId, e.index))] + ask.queue)
  }

  function HandlePropose(c: Core, ev: Event): Output
    requires ev.ProposeSession? || ev.ProposeSet? || ev.ProposeDelete?
  {
    if c.node.role != Leader then Output(c, [Emit(ProposalRejected(ev.proposalId, c.node.leaderId))])
    else
      var index := LastIndex(c.node) + 1;
      match ev
      case ProposeSession(id, kind, session) =>
        if kind != OpenSession && kind != CloseSession then Output(c, [])
        else ProposeEntry(c, id, Entry(index, c.node.term, kind, session, 0, [], []))
      case ProposeSet(id, session, sequence, key, value) =>
        ProposeEntry(c, id, Entry(index, c.node.term, SetKey, session, sequence, key, value))
      case ProposeDelete(id, session, sequence, key) =>
        ProposeEntry(c, id, Entry(index, c.node.term, DeleteKey, session, sequence, key, []))
  }

  function HandleConfirmRead(c: Core, readId: nat): Output {
    if c.node.role != Leader then Output(c, [Emit(ReadRejected(readId, c.node.leaderId))])
    else if !c.node.readReady then Output(c, [Emit(ReadRejected(readId, ""))])
    else SendEach(c.(node := c.node.(waiting := c.node.waiting[readId := PendingRead({c.node.id}, 0, false)])), readId)
  }

  function HandleHeartbeat(c: Core): Output {
    if c.node.role != Leader then Output(c, [])
    else
      var sent := SendEach(c.(node := c.node.(inFlight := map[])), 0);
      Output(sent.core, [Emit(ResetHeartbeatTimer)] + sent.queue)
  }

  function HandleAppend(c: Core, from: NodeId, m: Message): Output
    requires m.AppendRequest?
  {
    if m.term < c.node.term then
      Output(c, [Emit(Reply(c.node, from, m.requestId, false, Hint(0, 0), m.readId))])
    else
      AppendRecognised(c.(node := Recognise(c.node, m.term, from)), m.term > c.node.term, from, m)
  }

  /** HandleAppend once the Leader is recognised. */
  function AppendRecognised(c: Core, changed: bool, from: NodeId, m: Message): Output
    requires m.AppendRequest?
  {
    var n := c.node;
    if !Matches(n, m.prevIndex, m.prevTerm) then
      AfterTerm(c, changed, [Emit(ResetElectionTimer), Emit(Reply(n, from, m.requestId, false, ConflictHint(n, m.prevIndex), m.readId))])
    else
      match PlanAppend(n, m.prevIndex + 1, m.entries)
      case Refuse =>
        AfterTerm(c, changed, [Emit(ResetElectionTimer), Emit(Reply(n, from, m.requestId, false, ConflictHint(n, m.prevIndex + 1), m.readId))])
      case Nothing =>
        if LastIndex(n) > c.durableLog then AfterTerm(c, changed, [Emit(ResetElectionTimer)])
        else
          var done := AdvanceFollower(c, m.leaderCommit, Emit(Reply(n, from, m.requestId, true, Hint(0, 0), m.readId)));
          AfterTerm(done.core, changed, [Emit(ResetElectionTimer)] + done.queue)
      case Store(truncateFrom, tail) => AppendStored(c, changed, from, m, truncateFrom, tail)
  }

  function AppendStored(c: Core, changed: bool, from: NodeId, m: Message, truncateFrom: nat, tail: seq<Entry>): Output
    requires m.AppendRequest?
  {
    var n' := StoreEntries(c.node, truncateFrom, tail);
    var c2 := c.(node := n', durableLog := if truncateFrom != 0 then Min(c.durableLog, truncateFrom - 1) else c.durableLog);
    var ask := AskLog(c2, truncateFrom, tail, FollowerAppend(m.term, from, m.requestId, LastIndex(n'), m.leaderCommit, m.readId));
    AfterTerm(ask.core, changed, [Emit(ResetElectionTimer)] + ask.queue)
  }

  function HandleAppendReply(c: Core, from: NodeId, m: Message): Output
    requires m.AppendReply?
  {
    if m.term > c.node.term then StepDownTo(c, m.term)
    else if c.node.role != Leader || m.term != c.node.term then Output(c, [])
    else
      var pending := Get(c.node.inFlight, from, InFlight(0, 0));
      if pending.requestId != 0 && m.requestId != 0 && m.requestId != pending.requestId then Output(c, [])
      else
        ReplyNoted(c.(node := NoteReply(c.node, from, m)), from, m, pending.leaderCommit)
  }

  /** HandleAppendReply once the reply is noted: commit or send on, then count
      the read it confirms. */
  function ReplyNoted(c: Core, from: NodeId, m: Message, leaderCommit: nat): Output
    requires m.AppendReply?
  {
    var index := LeaderCommit(c.node, LastIndex(c.node));
    var first :=
      if index > c.node.commit then
        var sent := SendEach(c.(node := c.node.(commit := index)), 0);
        AskCommit(sent.core, sent.queue)
      else
        var readId := PendingReadFor(c.node, from);
        if !m.success || Get(c.node.nextIndex, from, 0) <= Min(c.durableLog, LastIndex(c.node)) || readId != 0 || leaderCommit < c.node.commit
        then SendOne(c, from, readId) else Output(c, []);
    var read := AckRead(first.core.node, from, m.readId);
    Output(first.core.(node := read.node), first.queue + Emits(read.actions))
  }

  function HandleSnapshot(c: Core, from: NodeId, m: Message, st: Staged): Output
    requires m.SnapshotRequest?
  {
    if m.term < c.node.term then Output(c, [Emit(SnapReply(c.node, from, m, false, m.offset, false))])
    else
      var changed := m.term > c.node.term;
      var n := Recognise(c.node, m.term, from);
      var c1 := c.(node := n);
      if st.success && st.done && m.index > n.base then
        var ask := AskSnapshot(c1, from, m, st, m.index <= LastIndex(n) && TermAt(n, m.index) == m.snapTerm);
        AfterTerm(ask.core, changed, [Emit(ResetElectionTimer)] + ask.queue)
      else
        AfterTerm(c1, changed, [Emit(ResetElectionTimer),
                                Emit(SnapReply(n, from, m, st.success, st.nextOffset, st.success && st.done && m.index <= n.base))])
  }

  function HandleSnapshotReply(c: Core, from: NodeId, m: Message): Output
    requires m.SnapshotReply?
  {
    var n := c.node;
    if m.term > n.term then StepDownTo(c, m.term)
    else if n.role != Leader || m.term != n.term || Get(n.snapInFlight, from, 0) != m.requestId then Output(c, [])
    else if !m.success then Output(c.(node := n.(snapInFlight := n.snapInFlight - {from})), [])
    else if !m.done then Output(c, [Emit(Send(from, SnapshotRequest(n.term, m.requestId, n.base, n.baseTerm, m.nextOffset)))])
    else
      var c1 := c.(node := n.(snapInFlight := n.snapInFlight - {from},
                              matchIndex := n.matchIndex[from := Max(Get(n.matchIndex, from, 0), m.index)],
                              nextIndex := n.nextIndex[from := m.index + 1]));
      SendOne(c1, from, PendingReadFor(c1.node, from))
  }

  function HandleMessage(c: Core, from: NodeId, m: Message): Output {
    match m
    case PreVoteRequest(_, _, _) => Quiet(c, OnPreVoteRequest(c.node, from, m))
    case PreVoteReply(_, _, _) => HandlePreVoteReply(c, from, m)
    case VoteRequest(_, _, _) => HandleVoteRequest(c, from, m)
    case VoteReply(_, _) => HandleVoteReply(c, from, m)
    case AppendRequest(_, _, _, _, _, _, _) => HandleAppend(c, from, m)
    case AppendReply(_, _, _, _, _, _, _) => HandleAppendReply(c, from, m)
    case SnapshotReply(_, _, _, _, _, _) => HandleSnapshotReply(c, from, m)
    case SnapshotRequest(_, _, _, _, _) => Output(c, [])
  }

  /** raft.Node.Step on an event from outside. */
  function Handle(c: Core, ev: Event): Output {
    match ev
    case ElectionTimeout => HandleElectionTimeout(c)
    case HeartbeatTimeout => HandleHeartbeat(c)
    case CheckQuorumTimeout => Quiet(c, OnCheckQuorum(c.node))
    case RecoverCommitted =>
      var applied := ApplyThrough(c.node, c.durableCommit);
      Output(c.(node := applied.node), Emits(applied.actions))
    case SnapshotCompacted(index, term) => Quiet(c, OnCompacted(c.node, index, term))
    case ProposeSession(_, _, _) => HandlePropose(c, ev)
    case ProposeSet(_, _, _, _, _) => HandlePropose(c, ev)
    case ProposeDelete(_, _, _, _) => HandlePropose(c, ev)
    case ConfirmRead(id) => HandleConfirmRead(c, id)
    case AppendFailed(to, id) => Quiet(c, OnAppendFailed(c.node, to, id))
    case Receive(from, m) => HandleMessage(c, from, m)
    case ReceiveSnapshot(from, m, st) => if m.SnapshotRequest? then HandleSnapshot(c, from, m, st) else Output(c, [])
  }
}
