/** Election safety over every run, the excluded events included: a vote leaves a
    Node only when it is durable, replaying the WAL never forgets or changes it
    even where it misjudges the log, and so at most one Node is ever elected in a
    Term. */
module Votes {
  import opened Types
  import opened Messages
  import opened Quorums
  import opened Node
  import opened Cluster
  import opened Speech
  import opened WalReplay
  import opened HardRecords
  import opened Durability
  import Runtime
  import Elections

  // ------------------------------------------------------------- what a step may do

  predicate Standing(n: Node) { n.role == Candidate || n.role == Leader }

  /** The Term rises, or the vote stays what it was once given. */
  predicate Onward(n: Node, n': Node) {
    n.term < n'.term || (n.term == n'.term && (n.votedFor == "" || n'.votedFor == n.votedFor))
  }

  /** Whatever is granted or won belongs to the state the step leaves. */
  predicate Announces(a: Action, n: Node) {
    && (a.BecameLeader? ==> a.term == n.term && n.role == Leader)
    && (a.Send? && a.msg.VoteReply? && a.msg.granted ==> a.msg.term == n.term && a.to == n.votedFor && a.to != "")
  }

  predicate AllAnnounce(actions: seq<Action>, n: Node) {
    forall a :: a in actions ==> Announces(a, n)
  }

  predicate SavesOnly(writes: seq<Write>, n: Node) {
    forall w :: w in writes && w.SaveHardState? ==> w.term == n.term && w.votedFor == n.votedFor
  }

  /** Votes a Node may count after a step: its own, those it had, the one it got. */
  function Countable(n: Node, n': Node, got: set<NodeId>): set<NodeId> {
    {n.id} + if n.term != n'.term then {} else got + if Standing(n) then n.votes else {}
  }

  predicate CountsOnly(n: Node, r: StepResult, got: set<NodeId>) {
    Standing(r.node) ==>
      && r.node.votedFor == n.id && n.id in r.node.votes && r.node.votes <= Countable(n, r.node, got)
      && (r.node.role == Leader ==>
            || (n.role == Leader && n.term == r.node.term && r.node.votes == n.votes)
            || (|r.node.votes| >= Quorum(n) && BecameLeader(r.node.term) in r.actions))
  }

  /** A step that treats votes as it should. `got` is who granted one just now. */
  predicate Lawful(n: Node, r: StepResult, got: set<NodeId>) {
    && r.node.id == n.id && r.node.peers == n.peers
    && Onward(n, r.node) && AllAnnounce(r.actions, r.node) && SavesOnly(r.writes, r.node) && CountsOnly(n, r, got)
  }

  predicate Proper(n: Node) { Standing(n) ==> n.votedFor == n.id && n.id in n.votes }

  // --------------------------------------------------------------------- handlers

  lemma NeutralAnnounces(actions: seq<Action>, n: Node)
    requires AllNeutral(actions)
    ensures AllAnnounce(actions, n)
  {
  }

  /** A step that keeps Term, role and votes and announces nothing. */
  lemma KeptLawful(n: Node, r: StepResult)
    requires Proper(n) && SameSelf(n, r.node) && SameVote(n, r.node) && AllNeutral(r.actions) && SavesOnly(r.writes, r.node)
    ensures Lawful(n, r, {})
  {
    NeutralAnnounces(r.actions, r.node);
  }

  /** A step after which the Node no longer stands. */
  lemma ResignedLawful(n: Node, r: StepResult)
    requires r.node.id == n.id && r.node.peers == n.peers && Onward(n, r.node) && !Standing(r.node)
    requires AllNeutral(r.actions) && SavesOnly(r.writes, r.node)
    ensures Lawful(n, r, {})
  {
    NeutralAnnounces(r.actions, r.node);
  }

  lemma StepDownLawful(n: Node, term: nat)
    requires n.term < term
    ensures Lawful(n, StepDown(n, term), {})
  {
    ResignedLawful(n, StepDown(n, term));
  }

  lemma {:induction false} BroadcastNeutral(peers: seq<NodeId>, m: Message)
    requires !m.VoteReply?
    ensures AllNeutral(Broadcast(peers, m))
    decreases |peers|
  {
    if peers != [] { BroadcastNeutral(peers[1..], m); }
  }

  lemma ElectionLawful(n: Node)
    ensures Lawful(n, StartElection(n), {})
  {
    BroadcastNeutral(n.peers, VoteRequest(n.term + 1, LastIndex(n), LastTerm(n)));
    NeutralAnnounces(StartElection(n).actions, StartElection(n).node);
  }

  lemma TimeoutLawful(n: Node)
    requires Proper(n)
    ensures Lawful(n, OnElectionTimeout(n), {})
  {
    hide StartElection;
    BroadcastNeutral(n.peers, PreVoteRequest(n.term + 1, LastIndex(n), LastTerm(n)));
    if n.role == Leader {
      KeptLawful(n, Unchanged(n));
    } else {
      var n' := n.(recentContact := false, leaderId := "", role := PreCandidate, preVotes := {n.id});
      var ask := [ResetElectionTimer] + Broadcast(n.peers, PreVoteRequest(n.term + 1, LastIndex(n), LastTerm(n)));
      ResignedLawful(n, StepResult(n', [], ask));
      AskThenStand(n, n', ask);
    }
  }

  lemma AskThenStand(n: Node, n': Node, ask: seq<Action>)
    requires n' == n.(recentContact := false, leaderId := "", role := PreCandidate, preVotes := {n.id}) && AllNeutral(ask)
    ensures var r := StartElection(n'); Lawful(n, r.(actions := ask + r.actions), {})
  {
    ElectionLawful(n');
    NeutralAnnounces(ask, StartElection(n').node);
  }

  lemma PreVoteReplyLawful(n: Node, from: NodeId, m: Message)
    requires m.PreVoteReply? && Proper(n)
    ensures Lawful(n, OnPreVoteReply(n, from, m), {})
  {
    hide StartElection, StepDown;
    if m.currentTerm > n.term {
      StepDownLawful(n, m.currentTerm);
    } else {
      KeptLawful(n, Unchanged(n));
      var n' := n.(preVotes := n.preVotes + {from});
      if n.role == PreCandidate { ResignedLawful(n, Unchanged(n')); }
      ElectionLawful(n');
      PreVotesDoNotMatter(n, n', StartElection(n'));
    }
  }

  lemma PreVotesDoNotMatter(n: Node, n': Node, r: StepResult)
    requires n' == n.(preVotes := n'.preVotes) && Lawful(n', r, {})
    ensures Lawful(n, r, {})
  {
  }

  lemma VoteRequestLawful(n: Node, from: NodeId, m: Message)
    requires m.VoteRequest? && Proper(n) && n.id != "" && from != ""
    ensures Lawful(n, OnVoteRequest(n, from, m), {})
  {
    hide BecomeFollower, LogIsUpToDate, Lawful;
    if m.term < n.term {
      KeptLawful(n, OnVoteRequest(n, from, m));
    } else if m.term > n.term {
      FreshFollower(n, m.term);
      VoterLawful(n, BecomeFollower(n, m.term, ""), from, m, true);
    } else {
      VoterLawful(n, n, from, m, false);
    }
  }

  lemma FreshFollower(n: Node, t: nat)
    requires n.term < t
    ensures var n' := BecomeFollower(n, t, ""); n'.id == n.id && n'.peers == n.peers && n'.term == t && n'.votedFor == "" && n'.role == Follower
  {
  }

  /** The decision on a vote once the Node is in the Term asked for. */
  lemma VoterLawful(n: Node, n1: Node, from: NodeId, m: Message, raised: bool)
    requires m.VoteRequest? && n1.term == m.term && n1.id == n.id && n1.peers == n.peers && Proper(n) && n.id != "" && from != ""
    requires if raised then n.term < n1.term && n1.votedFor == "" && n1.role == Follower else n1 == n
    ensures var grant := (n1.votedFor == "" || n1.votedFor == from) && LogIsUpToDate(m.lastTerm, m.lastIndex, LastTerm(n1), LastIndex(n1));
            var n2 := if grant then n1.(votedFor := from) else n1;
            var save := raised || (grant && n1.votedFor != from);
            Lawful(n, StepResult(n2, if save then [SaveHardState(n2.term, n2.votedFor)] else [], [Send(from, VoteReply(n2.term, grant))]), {})
  {
    hide LogIsUpToDate;
  }

  lemma VoteReplyLawful(n: Node, from: NodeId, m: Message)
    requires m.VoteReply? && Proper(n)
    ensures Lawful(n, OnVoteReply(n, from, m), if m.granted && m.term == n.term then {from} else {})
  {
    hide SendAll, StepDown;
    if m.term > n.term {
      StepDownLawful(n, m.term);
    } else {
      KeptLawful(n, Unchanged(n));
      if n.role == Candidate && m.term == n.term && m.granted { WonLawful(n, from); }
    }
  }

  lemma WonLawful(n: Node, from: NodeId)
    requires n.role == Candidate && Proper(n)
    ensures Lawful(n, OnVoteReply(n, from, VoteReply(n.term, true)), {from})
  {
    hide SendAll;
    var noop := FirstEntry(n);
    var n1 := n.(votes := n.votes + {from});
    var n2 := n1.(role := Leader, leaderId := n.id, activePeers := {}, matchIndex := map[],
                  inFlight := map[], snapInFlight := map[], readReady := false,
                  log := n.log + [noop], nextIndex := InitialNext(n.peers, LastIndex(n) + 2));
    SendAllSpeaks(n2, n2.peers, 0);
    NeutralAnnounces(SendAll(n2, n2.peers, 0).actions, SendAll(n2, n2.peers, 0).node);
  }

  lemma RecogniseOnward(n: Node, t: nat, from: NodeId)
    requires n.term <= t
    ensures var n' := Recognise(n, t, from);
            && n'.id == n.id && n'.peers == n.peers && Onward(n, n') && n'.role == Follower && n'.term == t
            && SavesOnly(HardStateIf(t > n.term, n'), n')
  {
  }

  /** Recognising a Leader, then anything neutral that keeps the vote. */
  lemma FollowedLawful(n: Node, n1: Node, r: StepResult)
    requires n1.id == n.id && n1.peers == n.peers && Onward(n, n1) && n1.role == Follower
    requires SameSelf(n1, r.node) && SameVote(n1, r.node) && AllNeutral(r.actions) && SavesOnly(r.writes, n1)
    ensures Lawful(n, r, {})
  {
    ResignedLawful(n, r);
  }

  lemma FinishLawful(n0: Node, n: Node, writes: seq<Write>, from: NodeId, m: Message)
    requires m.AppendRequest? && n.id == n0.id && n.peers == n0.peers && Onward(n0, n) && n.role == Follower && SavesOnly(writes, n)
    ensures Lawful(n0, FinishAppend(n, writes, from, m), {})
  {
    hide ApplyThrough;
    var target := Min(m.leaderCommit, LastIndex(n));
    var n1 := if target > n.commit then n.(commit := target) else n;
    ApplyThroughSpeaks(n1, n1.commit);
    FollowedLawful(n0, n, FinishAppend(n, writes, from, m));
  }

  lemma StoredLawful(n0: Node, n: Node, hs: seq<Write>, truncateFrom: nat, tail: seq<Entry>, from: NodeId, m: Message)
    requires m.AppendRequest? && n.id == n0.id && n.peers == n0.peers && Onward(n0, n) && n.role == Follower && SavesOnly(hs, n)
    ensures Lawful(n0, FinishAppend(StoreEntries(n, truncateFrom, tail), hs + StoreWrites(truncateFrom, tail), from, m), {})
  {
    FinishLawful(n0, StoreEntries(n, truncateFrom, tail), hs + StoreWrites(truncateFrom, tail), from, m);
  }

  lemma AppendRequestLawful(n: Node, from: NodeId, m: Message)
    requires m.AppendRequest? && Proper(n)
    ensures Lawful(n, OnAppendRequest(n, from, m), {})
  {
    hide FinishAppend, PlanAppend, Matches, ConflictHint, Recognise, HardStateIf, StoreEntries, StoreWrites, Lawful;
    if m.term < n.term {
      KeptLawful(n, StepResult(n, [], [Reply(n, from, m.requestId, false, Hint(0, 0), m.readId)]));
    } else {
      var n1 := Recognise(n, m.term, from);
      var hs := HardStateIf(m.term > n.term, n1);
      RecogniseOnward(n, m.term, from);
      FollowedLawful(n, n1, StepResult(n1, hs, [ResetElectionTimer, Reply(n1, from, m.requestId, false, ConflictHint(n1, m.prevIndex), m.readId)]));
      FollowedLawful(n, n1, StepResult(n1, hs, [ResetElectionTimer, Reply(n1, from, m.requestId, false, ConflictHint(n1, m.prevIndex + 1), m.readId)]));
      FinishLawful(n, n1, hs, from, m);
      var plan := PlanAppend(n1, m.prevIndex + 1, m.entries);
      if plan.Store? { StoredLawful(n, n1, hs, plan.truncateFrom, plan.tail, from, m); }
    }
  }

  lemma CurrentReplyLawful(n: Node, from: NodeId, m: Message, leaderCommit: nat)
    requires m.AppendReply? && Proper(n)
    ensures Lawful(n, CurrentReply(n, from, m, leaderCommit), {})
  {
    hide SendAll, AckRead, ApplyThrough, SendTo, PendingReadFor, LeaderCommit, NoteReply, Neutral, Lawful;
    NoteReplySame(n, from, m);
    var n1 := NoteReply(n, from, m);
    var index := LeaderCommit(n1, LastIndex(n1));
    var n2 := n1.(commit := index);
    SendAllSpeaks(n2, n1.peers, 0);
    var sent := SendAll(n2, n1.peers, 0);
    AckReadSpeaks(sent.node, from, m.readId);
    ApplyThroughSpeaks(AckRead(sent.node, from, m.readId).node, index);
    SendToSpeaks(n1, from, PendingReadFor(n1, from));
    AckReadSpeaks(SendTo(n1, from, PendingReadFor(n1, from)).node, from, m.readId);
    AckReadSpeaks(n1, from, m.readId);
    KeptLawful(n, CurrentReply(n, from, m, leaderCommit));
  }

  lemma AppendReplyLawful(n: Node, from: NodeId, m: Message)
    requires m.AppendReply? && Proper(n)
    ensures Lawful(n, OnAppendReply(n, from, m), {})
  {
    hide CurrentReply, Lawful, StepDown;
    if m.term > n.term { StepDownLawful(n, m.term); }
    KeptLawful(n, Unchanged(n));
    CurrentReplyLawful(n, from, m, Get(n.inFlight, from, InFlight(0, 0)).leaderCommit);
  }

  lemma SnapshotReplyLawful(n: Node, from: NodeId, m: Message)
    requires m.SnapshotReply? && Proper(n)
    ensures Lawful(n, OnSnapshotReply(n, from, m), {})
  {
    hide SendTo, PendingReadFor, Lawful, StepDown;
    if m.term > n.term {
      StepDownLawful(n, m.term);
    } else {
      var n1 := n.(snapInFlight := n.snapInFlight - {from},
                   matchIndex := n.matchIndex[from := Max(Get(n.matchIndex, from, 0), m.index)],
                   nextIndex := n.nextIndex[from := m.index + 1]);
      SendToSpeaks(n1, from, PendingReadFor(n1, from));
      KeptLawful(n, OnSnapshotReply(n, from, m));
    }
  }

  lemma ChunkLawful(n: Node, from: NodeId, m: Message, st: Staged)
    requires m.SnapshotRequest? && Proper(n)
    ensures Lawful(n, OnSnapshotRequest(n, from, m, st), {})
  {
    hide Recognise, HardStateIf, TermAt, Lawful;
    if m.term < n.term {
      KeptLawful(n, OnSnapshotRequest(n, from, m, st));
    } else {
      RecogniseOnward(n, m.term, from);
      FollowedLawful(n, Recognise(n, m.term, from), OnSnapshotRequest(n, from, m, st));
    }
  }

  lemma ProposalLawful(n: Node, ev: Event)
    requires (ev.ProposeSession? || ev.ProposeSet? || ev.ProposeDelete?) && Proper(n)
    ensures Lawful(n, OnPropose(n, ev), {})
  {
    hide SendAll, Lawful;
    KeptLawful(n, Unchanged(n));
    KeptLawful(n, StepResult(n, [], [ProposalRejected(ev.proposalId, n.leaderId)]));
    forall e: Entry ensures Lawful(n, Propose(n, ev.proposalId, e), {}) {
      SendAllSpeaks(n.(log := n.log + [e]), n.peers, 0);
      KeptLawful(n, Propose(n, ev.proposalId, e));
    }
  }

  lemma HeartbeatLawful(n: Node)
    requires Proper(n)
    ensures Lawful(n, OnHeartbeat(n), {})
  {
    hide SendAll, Lawful;
    SendAllSpeaks(n.(inFlight := map[]), n.peers, 0);
    KeptLawful(n, OnHeartbeat(n));
  }

  lemma CheckQuorumLawful(n: Node)
    requires Proper(n)
    ensures Lawful(n, OnCheckQuorum(n), {})
  {
    hide Lawful;
    if n.role == Leader && |n.activePeers| + 1 < Quorum(n) {
      ResignedLawful(n, OnCheckQuorum(n));
    } else {
      KeptLawful(n, OnCheckQuorum(n));
    }
  }

  lemma ConfirmReadLawful(n: Node, id: nat)
    requires Proper(n)
    ensures Lawful(n, OnConfirmRead(n, id), {})
  {
    hide SendAll, Lawful;
    SendAllSpeaks(n.(waiting := n.waiting[id := PendingRead({n.id}, 0, false)]), n.peers, id);
    KeptLawful(n, OnConfirmRead(n, id));
  }

  /** A silent step on bookkeeping that has nothing to do with votes. */
  lemma SilentLawful(n: Node, n': Node, writes: seq<Write>)
    requires Proper(n) && SameSelf(n, n') && SameVote(n, n') && forall w :: w in writes ==> !w.SaveHardState?
    ensures Lawful(n, StepResult(n', writes, []), {})
  {
    KeptLawful(n, StepResult(n', writes, []));
  }

  lemma AppendFailedLawful(n: Node, to: NodeId, requestId: nat)
    requires Proper(n)
    ensures Lawful(n, OnAppendFailed(n, to, requestId), {})
  {
    hide Lawful, Proper, Get;
    var appends := if Get(n.inFlight, to, InFlight(0, 0)).requestId == requestId then n.inFlight - {to} else n.inFlight;
    var chunks := if Get(n.snapInFlight, to, 0) == requestId then n.snapInFlight - {to} else n.snapInFlight;
    SilentLawful(n, n.(inFlight := appends, snapInFlight := chunks), []);
  }

  lemma CompactedLawful(n: Node, index: nat, term: nat)
    requires Proper(n)
    ensures Lawful(n, OnCompacted(n, index, term), {})
  {
    hide Lawful, Proper, TermAt;
    if CanCompact(n, index, term) {
      SilentLawful(n, n.(log := n.log[index - n.base..], base := index, baseTerm := term), [Checkpoint(index, term, true)]);
    } else {
      SilentLawful(n, n, []);
    }
  }

  /** Who granted the vote a message brings. */
  function Gets(n: Node, from: NodeId, m: Message): set<NodeId> {
    if m.VoteReply? && m.granted && m.term == n.term then {from} else {}
  }

  lemma MessageLawful(n: Node, from: NodeId, m: Message)
    requires Proper(n) && n.id != "" && from != ""
    ensures Lawful(n, OnReceive(n, from, m), Gets(n, from, m))
  {
    hide Lawful, OnPreVoteReply, OnVoteRequest, OnVoteReply, OnAppendRequest, OnAppendReply, OnSnapshotReply;
    match m
    case PreVoteRequest(_, _, _) => KeptLawful(n, OnPreVoteRequest(n, from, m));
    case PreVoteReply(_, _, _) => PreVoteReplyLawful(n, from, m);
    case VoteRequest(_, _, _) => VoteRequestLawful(n, from, m);
    case VoteReply(_, _) => VoteReplyLawful(n, from, m);
    case AppendRequest(_, _, _, _, _, _, _) => AppendRequestLawful(n, from, m);
    case AppendReply(_, _, _, _, _, _, _) => AppendReplyLawful(n, from, m);
    case SnapshotReply(_, _, _, _, _, _) => SnapshotReplyLawful(n, from, m);
    case SnapshotRequest(_, _, _, _, _) => KeptLawful(n, Unchanged(n));
  }

  function Receives(n: Node, stim: Stimulus): set<NodeId> {
    if stim.Message? then Gets(n, stim.packet.from, stim.packet.msg) else {}
  }

  lemma StepLawful(c: Cluster, id: NodeId, stim: Stimulus)
    requires Enabled(c, id, stim) && Proper(c.hosts[id].node) && c.hosts[id].node.id != "" && (stim.Message? ==> stim.packet.from != "")
    ensures var n := c.hosts[id].node; Lawful(n, Step(n, EventOf(n, stim)), Receives(n, stim))
  {
    hide Lawful, OnReceive, OnSnapshotRequest, OnElectionTimeout, OnPropose, OnHeartbeat, OnCheckQuorum, OnAppendFailed, OnConfirmRead, OnCompacted;
    var n := c.hosts[id].node;
    match stim
    case Local(ev) =>
      match ev {
        case ElectionTimeout => TimeoutLawful(n);
        case HeartbeatTimeout => HeartbeatLawful(n);
        case CheckQuorumTimeout => CheckQuorumLawful(n);
        case ConfirmRead(r) => ConfirmReadLawful(n, r);
        case AppendFailed(to, r) => AppendFailedLawful(n, to, r);
        case ProposeSession(_, _, _) => ProposalLawful(n, ev);
        case ProposeSet(_, _, _, _, _) => ProposalLawful(n, ev);
        case ProposeDelete(_, _, _, _) => ProposalLawful(n, ev);
        case _ =>
      }
    case Message(p) => MessageLawful(n, p.from, p.msg);
    case Chunk(p, st) => ChunkLawful(n, p.from, p.msg, st);
    case Compaction => CompactedLawful(n, n.lastApplied, TermAt(n, n.lastApplied));
  }

  // ------------------------------------------------------------------ the invariant

  predicate IsBallot(p: Packet, voter: NodeId, candidate: NodeId, t: nat) {
    p.from == voter && p.to == candidate && p.msg == VoteReply(t, true)
  }

  /** A Node gave its vote of Term t away: by a reply, or by being elected itself. */
  ghost predicate Voted(c: Cluster, voter: NodeId, candidate: NodeId, t: nat) {
    || (exists p :: p in c.net && IsBallot(p, voter, candidate, t))
    || (voter == candidate && Seen(voter, BecameLeader(t)) in c.seen)
  }

  /** The Node still knows of that vote, or has left the Term. */
  predicate Remembers(n: Node, t: nat, candidate: NodeId) {
    candidate != "" && (t < n.term || (t == n.term && n.votedFor == candidate))
  }

  ghost predicate VoteKept(c: Cluster, voter: NodeId, candidate: NodeId, t: nat) {
    Voted(c, voter, candidate, t) ==> voter in c.hosts && Remembers(c.hosts[voter].node, t, candidate)
  }

  ghost predicate NoSecondVote(c: Cluster, voter: NodeId, x: NodeId, y: NodeId, t: nat) {
    Voted(c, voter, x, t) && Voted(c, voter, y, t) ==> x == y
  }

  ghost predicate Counts(c: Cluster, id: NodeId, n: Node) {
    && n.id == id && IsPeerList(c.hosts.Keys, id, n.peers) && Proper(n)
    && (Standing(n) ==> n.votes <= c.hosts.Keys && forall v :: v in n.votes && v != id ==> Voted(c, v, id, n.term))
    && (n.role == Leader ==> Seen(id, BecameLeader(n.term)) in c.seen)
  }

  /** Whatever the Node would recover, it is its own Term and vote. */
  predicate DiskHolds(c: Cluster, id: NodeId, n: Node) { KeepsHard(JournalOf(c, id).records, HardOf(DurableOf(n))) }

  /** A majority voted for the Node in Term t. */
  ghost predicate Elected(c: Cluster, id: NodeId, t: nat) {
    exists q :: IsQuorum(c.hosts.Keys, q) && AllVoted(c, q, id, t)
  }

  ghost predicate AllVoted(c: Cluster, q: set<NodeId>, id: NodeId, t: nat) {
    forall v :: v in q ==> Voted(c, v, id, t)
  }

  ghost predicate VotesHold(c: Cluster) {
    && "" !in c.hosts
    && (forall p :: p in c.net ==> p.from in c.hosts)
    && (forall v, x, t {:trigger VoteKept(c, v, x, t)} :: VoteKept(c, v, x, t))
    && (forall v, x, y, t {:trigger NoSecondVote(c, v, x, y, t)} :: NoSecondVote(c, v, x, y, t))
    && (forall id {:trigger Counts(c, id, c.hosts[id].node)} :: id in c.hosts ==> Counts(c, id, c.hosts[id].node))
    && (forall id {:trigger DiskHolds(c, id, c.hosts[id].node)} :: id in c.hosts ==> DiskHolds(c, id, c.hosts[id].node))
    && (forall id, t {:trigger Elected(c, id, t)} :: Seen(id, BecameLeader(t)) in c.seen ==> Elected(c, id, t))
  }

  ghost predicate Grew(c: Cluster, c': Cluster, id: NodeId, n': Node) {
    && id in c.hosts && c'.hosts.Keys == c.hosts.Keys && c.net <= c'.net && c.seen <= c'.seen
    && (forall j {:trigger c'.hosts[j]} :: j in c.hosts && j != id ==> c'.hosts[j] == c.hosts[j] && JournalOf(c', j) == JournalOf(c, j))
    && c'.hosts[id].node == n' && Onward(c.hosts[id].node, n')
    && (forall p :: p in c'.net && p !in c.net ==> p.from == id && Announces(Send(p.to, p.msg), n'))
    && (forall o :: o in c'.seen && o !in c.seen ==> o.node == id && Announces(o.action, n'))
  }

  lemma VotedStable(c: Cluster, c': Cluster, v: NodeId, x: NodeId, t: nat)
    requires c.net <= c'.net && c.seen <= c'.seen && Voted(c, v, x, t)
    ensures Voted(c', v, x, t)
  {
    if exists p :: p in c.net && IsBallot(p, v, x, t) {
      var p :| p in c.net && IsBallot(p, v, x, t);
      assert p in c'.net;
    }
  }

  /** Every vote cast by the step is the one the Node now remembers. */
  lemma NewVotes(c: Cluster, c': Cluster, id: NodeId, n': Node, v: NodeId, x: NodeId, t: nat)
    requires Grew(c, c', id, n') && id != "" && Proper(n') && n'.id == id && Voted(c', v, x, t)
    ensures Voted(c, v, x, t) || (v == id && Remembers(n', t, x))
  {
    if exists p :: p in c'.net && IsBallot(p, v, x, t) {
      var p :| p in c'.net && IsBallot(p, v, x, t);
      if p !in c.net { assert Announces(Send(p.to, p.msg), n'); }
    } else if Seen(v, BecameLeader(t)) !in c.seen {
      assert Announces(BecameLeader(t), n');
    }
  }

  lemma KeepVotes(c: Cluster, c': Cluster, id: NodeId, n': Node, v: NodeId, x: NodeId, t: nat)
    requires VotesHold(c) && Grew(c, c', id, n') && Proper(n') && n'.id == id
    ensures VoteKept(c', v, x, t)
  {
    hide VotesHold;
    MembersNamed(c, id);
    if Voted(c', v, x, t) {
      NewVotes(c, c', id, n', v, x, t);
      KeptOf(c, v, x, t);
    }
  }

  lemma MembersNamed(c: Cluster, id: NodeId)
    requires VotesHold(c)
    ensures id in c.hosts ==> id != ""
  {
  }

  lemma KeptOf(c: Cluster, v: NodeId, x: NodeId, t: nat)
    requires VotesHold(c)
    ensures VoteKept(c, v, x, t)
  {
  }

  lemma OneVote(c: Cluster, c': Cluster, id: NodeId, n': Node, v: NodeId, x: NodeId, y: NodeId, t: nat)
    requires VotesHold(c) && Grew(c, c', id, n') && Proper(n') && n'.id == id
    ensures NoSecondVote(c', v, x, y, t)
  {
    hide VotesHold, Voted;
    MembersNamed(c, id);
    if Voted(c', v, x, t) && Voted(c', v, y, t) {
      NewVotes(c, c', id, n', v, x, t);
      NewVotes(c, c', id, n', v, y, t);
      KeepVotes(c, c', id, n', v, x, t);
      KeepVotes(c, c', id, n', v, y, t);
      SecondOf(c, v, x, y, t);
      NewIsNow(c, c', id, n', v, x, t);
      NewIsNow(c, c', id, n', v, y, t);
    }
  }

  lemma SecondOf(c: Cluster, v: NodeId, x: NodeId, y: NodeId, t: nat)
    requires VotesHold(c)
    ensures NoSecondVote(c, v, x, y, t)
  {
  }

  /** A vote not cast before is cast in the Term the Node is in now. */
  lemma NewIsNow(c: Cluster, c': Cluster, id: NodeId, n': Node, v: NodeId, x: NodeId, t: nat)
    requires Grew(c, c', id, n') && Voted(c', v, x, t)
    ensures Voted(c, v, x, t) || (v == id && t == n'.term)
  {
    if exists p :: p in c'.net && IsBallot(p, v, x, t) {
      var p :| p in c'.net && IsBallot(p, v, x, t);
      if p !in c.net { assert Announces(Send(p.to, p.msg), n'); }
    } else if Seen(v, BecameLeader(t)) !in c.seen {
      assert Announces(BecameLeader(t), n');
    }
  }

  lemma CountsStable(c: Cluster, c': Cluster, id: NodeId, n: Node)
    requires Counts(c, id, n) && c.net <= c'.net && c.seen <= c'.seen && c'.hosts.Keys == c.hosts.Keys
    ensures Counts(c', id, n)
  {
    if Standing(n) {
      forall v | v in n.votes && v != id ensures Voted(c', v, id, n.term) { VotedStable(c, c', v, id, n.term); }
    }
  }

  lemma ElectedStable(c: Cluster, c': Cluster, id: NodeId, t: nat)
    requires Elected(c, id, t) && c.net <= c'.net && c.seen <= c'.seen && c'.hosts.Keys == c.hosts.Keys
    ensures Elected(c', id, t)
  {
    var q :| IsQuorum(c.hosts.Keys, q) && AllVoted(c, q, id, t);
    forall v | v in q ensures Voted(c', v, id, t) { VotedStable(c, c', v, id, t); }
    assert AllVoted(c', q, id, t);
  }

  lemma Recount(c: Cluster, c': Cluster, id: NodeId, n': Node)
    requires VotesHold(c) && Grew(c, c', id, n') && Counts(c', id, n') && DiskHolds(c', id, n')
    requires n'.role == Leader ==> Elected(c', id, n'.term)
    ensures VotesHold(c')
  {
    hide Voted, VoteKept, NoSecondVote, Counts, Elected, Announces, Onward, DiskHolds, JournalOf;
    CountsProper(c', id, n');
    forall v, x, t ensures VoteKept(c', v, x, t) { KeepVotes(c, c', id, n', v, x, t); }
    forall v, x, y, t ensures NoSecondVote(c', v, x, y, t) { OneVote(c, c', id, n', v, x, y, t); }
    forall j | j in c'.hosts ensures Counts(c', j, c'.hosts[j].node) {
      if j != id {
        assert Counts(c, j, c.hosts[j].node);
        CountsStable(c, c', j, c.hosts[j].node);
      }
    }
    forall j | j in c'.hosts ensures DiskHolds(c', j, c'.hosts[j].node) {
      if j != id {
        assert DiskHolds(c, j, c.hosts[j].node);
        DiskSame(c, c', j, c.hosts[j].node);
      }
    }
    forall j, t | Seen(j, BecameLeader(t)) in c'.seen ensures Elected(c', j, t) {
      if Seen(j, BecameLeader(t)) in c.seen {
        assert Elected(c, j, t);
        ElectedStable(c, c', j, t);
      } else {
        NowLeading(BecameLeader(t), n');
      }
    }
  }

  lemma DiskSame(c: Cluster, c': Cluster, id: NodeId, n: Node)
    requires DiskHolds(c, id, n) && JournalOf(c', id) == JournalOf(c, id)
    ensures DiskHolds(c', id, n)
  {
    hide KeepsHard;
  }

  lemma CountsProper(c: Cluster, id: NodeId, n: Node)
    requires Counts(c, id, n)
    ensures Proper(n) && n.id == id
  {
  }

  lemma NowLeading(a: Action, n: Node)
    requires a.BecameLeader? && Announces(a, n)
    ensures n.role == Leader && a.term == n.term
  {
  }

  // --------------------------------------------------------------------- every step

  lemma RunCounts(c: Cluster, c': Cluster, id: NodeId, stim: Stimulus, r: StepResult)
    requires id in c.hosts && Counts(c, id, c.hosts[id].node) && Enabled(c, id, stim)
    requires Lawful(c.hosts[id].node, r, Receives(c.hosts[id].node, stim))
    requires c'.hosts.Keys == c.hosts.Keys && c.net <= c'.net && c.seen <= c'.seen && Observed(id, r.actions) <= c'.seen
    requires forall p :: p in c.net ==> p.from in c.hosts
    ensures Counts(c', id, r.node)
    ensures r.node.role == Leader && c.hosts[id].node.role != Leader ==> Elected(c', id, r.node.term)
  {
    var n, n' := c.hosts[id].node, r.node;
    if Standing(n') {
      forall v | v in n'.votes && v != id ensures Voted(c', v, id, n'.term) { RunVote(c, c', id, stim, n', v); }
      forall v | v in n'.votes ensures v in c.hosts.Keys { if v != id { RunVote(c, c', id, stim, n', v); } }
      if n'.role == Leader && BecameLeader(n'.term) in r.actions {
        assert Seen(id, BecameLeader(n'.term)) in Observed(id, r.actions);
        if |n'.votes| >= Quorum(n) {
          Elections.MembersCount(c.hosts.Keys, id, n.peers);
          assert IsQuorum(c'.hosts.Keys, n'.votes);
          assert AllVoted(c', n'.votes, id, n'.term);
        }
      }
    }
  }

  /** Each vote a Node counts was cast for it. */
  lemma RunVote(c: Cluster, c': Cluster, id: NodeId, stim: Stimulus, n': Node, v: NodeId)
    requires id in c.hosts && Counts(c, id, c.hosts[id].node) && Enabled(c, id, stim) && c.net <= c'.net && c.seen <= c'.seen
    requires v in Countable(c.hosts[id].node, n', Receives(c.hosts[id].node, stim)) && v != id
    requires forall p :: p in c.net ==> p.from in c.hosts
    ensures v in c.hosts && Voted(c', v, id, n'.term)
  {
    var n := c.hosts[id].node;
    if v in Receives(n, stim) {
      assert IsBallot(stim.packet, v, id, n.term);
      assert stim.packet in c'.net;
    } else {
      VotedStable(c, c', v, id, n.term);
    }
  }

  lemma RunGrew(c: Cluster, id: NodeId, stim: Stimulus)
    requires id in c.hosts
    requires var n := c.hosts[id].node; Lawful(n, Step(n, EventOf(n, stim)), Receives(n, stim))
    ensures Grew(c, Run(c, id, stim), id, Step(c.hosts[id].node, EventOf(c.hosts[id].node, stim)).node)
  {
    hide Step, EventOf, Consume, Receives, CountsOnly, Onward, Announces, NewImage, Logged, SavesOnly;
    var h := c.hosts[id];
    var r, c' := Step(h.node, EventOf(h.node, stim)), Run(c, id, stim);
    var image := NewImage(h, stim, r.node.base);
    assert c'.hosts.Keys == c.hosts.Keys && c'.hosts[id].node == r.node && Onward(h.node, r.node);
    forall p | p in c'.net && p !in c.net ensures p.from == id && Announces(Send(p.to, p.msg), r.node) {
      assert p in Packets(id, image, r.actions);
      assert Send(p.to, p.msg) in r.actions;
    }
    forall o | o in c'.seen && o !in c.seen ensures o.node == id && Announces(o.action, r.node) {
      assert o in Observed(id, r.actions);
      assert o.action in r.actions;
    }
    forall j | j in c.hosts && j != id ensures c'.hosts[j] == c.hosts[j] && JournalOf(c', j) == JournalOf(c, j) {}
  }

  lemma RunHolds(c: Cluster, id: NodeId, stim: Stimulus)
    requires VotesHold(c) && Enabled(c, id, stim)
    ensures VotesHold(Run(c, id, stim))
  {
    hide Step, EventOf, Consume, Lawful, Grew, Counts, Receives, Elected, DiskHolds;
    var n := c.hosts[id].node;
    assert DiskHolds(c, id, n);
    var r, c' := Step(n, EventOf(n, stim)), Run(c, id, stim);
    assert Counts(c, id, n);
    CountsProper(c, id, n);
    StepLawful(c, id, stim);
    RunGrew(c, id, stim);
    RunDisk(c, id, stim);
    RunCounts(c, c', id, stim, r);
    if n.role == Leader && r.node.role == Leader { StillLeading(c, c', id, n, r, Receives(n, stim)); }
    Recount(c, c', id, r.node);
  }

  lemma StillLeading(c: Cluster, c': Cluster, id: NodeId, n: Node, r: StepResult, got: set<NodeId>)
    requires VotesHold(c) && id in c.hosts && n == c.hosts[id].node && n.role == Leader && r.node.role == Leader && Lawful(n, r, got)
    requires Counts(c', id, r.node) && Grew(c, c', id, r.node)
    ensures Elected(c', id, r.node.term)
  {
    assert Counts(c, id, n);
    if n.term == r.node.term && r.node.votes == n.votes {
      assert Elected(c, id, n.term);
      ElectedStable(c, c', id, n.term);
    } else {
      Elections.MembersCount(c.hosts.Keys, id, n.peers);
      assert IsQuorum(c'.hosts.Keys, r.node.votes);
      assert AllVoted(c', r.node.votes, id, r.node.term);
    }
  }

  // ------------------------------------------------------------------------ disks

  lemma LawfulSaves(n: Node, r: StepResult, got: set<NodeId>, k: nat)
    requires Lawful(n, r, got) && k <= |r.writes|
    ensures SavesHard(DurableOf(n), r.writes[..k], HardOf(DurableOf(r.node)))
  {
    assert forall w :: w in r.writes[..k] ==> w in r.writes;
  }

  /** A whole step leaves its Node's Term and vote on disk. */
  lemma HardCovered(n: Node, ev: Event)
    ensures HardOf(ApplyWrites(DurableOf(n), Step(n, ev).writes)) == HardOf(DurableOf(Step(n, ev).node))
  {
    if ev.SnapshotCompacted? {
      CompactionHard(n, ev.index, ev.snapTerm);
    } else {
      hide Step;
      WritesCover(n, ev);
    }
  }

  lemma CompactionHard(n: Node, index: nat, term: nat)
    ensures var r := OnCompacted(n, index, term); HardOf(ApplyWrites(DurableOf(n), r.writes)) == HardOf(DurableOf(r.node))
  {
    hide TermAt;
    if CanCompact(n, index, term) { OneWrite(DurableOf(n), Checkpoint(index, term, true)); }
  }

  lemma RunDisk(c: Cluster, id: NodeId, stim: Stimulus)
    requires id in c.hosts && DiskHolds(c, id, c.hosts[id].node)
    requires var n := c.hosts[id].node; Lawful(n, Step(n, EventOf(n, stim)), Receives(n, stim))
    ensures DiskHolds(Run(c, id, stim), id, Step(c.hosts[id].node, EventOf(c.hosts[id].node, stim)).node)
  {
    hide Step, EventOf, Consume, Lawful, Receives, KeepsHard, SavesHard;
    var n := c.hosts[id].node;
    var r := Step(n, EventOf(n, stim));
    LawfulSaves(n, r, Receives(n, stim), |r.writes|);
    assert r.writes[..|r.writes|] == r.writes;
    AfterWrites(DurableOf(n), r.writes, HardOf(DurableOf(r.node)), JournalOf(c, id).records);
    Runtime.LiveIsApply(DurableOf(n), r.writes);
    HardCovered(n, EventOf(n, stim));
  }

  // ------------------------------------------------------------------------ crashes

  /** Replay after a crash anywhere in a step returns the Term and vote of before
      or of after the step, which the records keep. */
  lemma ReplaysVote(c: Cluster, id: NodeId, stim: Stimulus, k: nat, d: Durable)
    requires id in c.hosts && DiskHolds(c, id, c.hosts[id].node)
    requires k <= |Step(c.hosts[id].node, EventOf(c.hosts[id].node, stim)).writes| && RecoveredAt(c, id, stim, k) == Ok(d)
    requires var n := c.hosts[id].node; Lawful(n, Step(n, EventOf(n, stim)), Receives(n, stim))
    ensures var n := c.hosts[id].node;
            && (HardOf(d) == HardOf(DurableOf(n)) || HardOf(d) == HardOf(DurableOf(Step(n, EventOf(n, stim)).node)))
            && KeepsHard(JournalAt(c, id, stim, k).records, HardOf(d))
  {
    hide Step, EventOf, Lawful, Receives, SavesHard, HardsBelow;
    var n := c.hosts[id].node;
    var r := Step(n, EventOf(n, stim));
    LawfulSaves(n, r, Receives(n, stim), k);
    AfterWrites(DurableOf(n), r.writes[..k], HardOf(DurableOf(r.node)), JournalOf(c, id).records);
  }

  lemma CrashGrew(c: Cluster, id: NodeId, stim: Stimulus, k: nat, d: Durable)
    requires id in c.hosts && c.hosts[id].node.id == id && DiskHolds(c, id, c.hosts[id].node)
    requires k <= |Step(c.hosts[id].node, EventOf(c.hosts[id].node, stim)).writes| && RecoveredAt(c, id, stim, k) == Ok(d)
    requires var n := c.hosts[id].node; Lawful(n, Step(n, EventOf(n, stim)), Receives(n, stim))
    ensures var c' := Resume(c, id, stim, k, d);
            var n' := c'.hosts[id].node;
            && Grew(c, c', id, n') && n'.id == id && n'.peers == c.hosts[id].node.peers && n'.role == Follower && DiskHolds(c', id, n')
  {
    ReplaysVote(c, id, stim, k, d);
    ResumeGrew(c, id, stim, k, d);
  }

  lemma ResumeGrew(c: Cluster, id: NodeId, stim: Stimulus, k: nat, d: Durable)
    requires id in c.hosts && c.hosts[id].node.id == id && k <= |Step(c.hosts[id].node, EventOf(c.hosts[id].node, stim)).writes|
    requires var n := c.hosts[id].node; Lawful(n, Step(n, EventOf(n, stim)), Receives(n, stim))
    requires var n := c.hosts[id].node;
             && (HardOf(d) == HardOf(DurableOf(n)) || HardOf(d) == HardOf(DurableOf(Step(n, EventOf(n, stim)).node)))
             && KeepsHard(JournalAt(c, id, stim, k).records, HardOf(d))
    ensures var c' := Resume(c, id, stim, k, d);
            var n' := c'.hosts[id].node;
            && Grew(c, c', id, n') && n'.id == id && n'.peers == c.hosts[id].node.peers && n'.role == Follower && DiskHolds(c', id, n')
  {
    hide Step, EventOf, Consume, ApplyThrough, Receives, CountsOnly, KeepsHard, JournalAt, Announces;
    var n := c.hosts[id].node;
    var fresh' := Restart(id, n.peers, d);
    var e := ApplyThrough(fresh', fresh'.commit);
    ApplyThroughSpeaks(fresh', fresh'.commit);
    NeutralAnnounces(e.actions, e.node);
    var c' := Resume(c, id, stim, k, d);
    assert c'.hosts[id].node == e.node && JournalOf(c', id) == JournalAt(c, id, stim, k);
    assert Onward(n, e.node);
    forall o | o in c'.seen && o !in c.seen ensures o.node == id && Announces(o.action, e.node) {
      assert o in Observed(id, e.actions);
    }
    forall j | j in c.hosts && j != id ensures c'.hosts[j] == c.hosts[j] && JournalOf(c', j) == JournalOf(c, j) {
    }
  }

  lemma CrashHolds(c: Cluster, id: NodeId, stim: Stimulus, k: nat, d: Durable)
    requires VotesHold(c) && Enabled(c, id, stim) && k <= |Step(c.hosts[id].node, EventOf(c.hosts[id].node, stim)).writes|
    requires RecoveredAt(c, id, stim, k) == Ok(d)
    ensures VotesHold(Resume(c, id, stim, k, d))
  {
    hide Step, EventOf, Resume, Lawful, Receives, Elected, RecoveredAt, DiskHolds;
    var n := c.hosts[id].node;
    assert Counts(c, id, n) && DiskHolds(c, id, n);
    StepLawful(c, id, stim);
    CrashGrew(c, id, stim, k, d);
    Recount(c, Resume(c, id, stim, k, d), id, Resume(c, id, stim, k, d).hosts[id].node);
  }

  lemma NextHolds(rules: Rules, c: Cluster, c': Cluster)
    requires VotesHold(c) && NextUnder(rules, c, c')
    ensures VotesHold(c')
  {
    hide VotesHold, Run, Resume, Step, EventOf, RecoveredAt, RestartGuarded;
    var id, stim :| StepUnder(rules, c, c', id, stim);
    if c' == Run(c, id, stim) {
      RunHolds(c, id, stim);
    } else {
      var k: nat :| CrashAt(rules, c, c', id, stim, k);
      CrashHolds(c, id, stim, k, RecoveredAt(c, id, stim, k).value);
    }
  }

  lemma StartHolds(c: Cluster)
    requires IsStart(c)
    ensures VotesHold(c)
  {
  }

  lemma {:induction false} RunsHold(rules: Rules, run: seq<Cluster>)
    requires IsRunUnder(rules, run)
    ensures VotesHold(run[|run| - 1])
    decreases |run|
  {
    hide VotesHold, NextUnder;
    var k := |run| - 1;
    if k == 0 {
      StartHolds(run[0]);
    } else {
      RunsHold(rules, run[..k]);
      assert NextUnder(rules, run[k - 1], run[k - 1 + 1]);
      NextHolds(rules, run[k - 1], run[k]);
    }
  }

  // ---------------------------------------------------------------------- theorems

  lemma ElectedOnce(c: Cluster, x: NodeId, y: NodeId, t: nat)
    requires VotesHold(c) && Elected(c, x, t) && Elected(c, y, t)
    ensures x == y
  {
    var q :| IsQuorum(c.hosts.Keys, q) && AllVoted(c, q, x, t);
    var q' :| IsQuorum(c.hosts.Keys, q') && AllVoted(c, q', y, t);
    var v := QuorumsIntersect(c.hosts.Keys, q, q');
    assert NoSecondVote(c, v, x, y, t);
  }

  /** In every run whatsoever, at most one Node is ever elected in a Term, and
      only that Node leads in it. */
  lemma ElectionsAreSafe(rules: Rules, run: seq<Cluster>, x: NodeId, y: NodeId, t: nat)
    requires IsRunUnder(rules, run)
    ensures var c := run[|run| - 1];
            && (Seen(x, BecameLeader(t)) in c.seen && Seen(y, BecameLeader(t)) in c.seen ==> x == y)
            && (x in c.hosts && y in c.hosts && Leads(c.hosts[x].node, t) && Leads(c.hosts[y].node, t) ==> x == y)
  {
    hide IsRunUnder, Elected, Voted;
    RunsHold(rules, run);
    NonEmpty(rules, run);
    var c := run[|run| - 1];
    LeaderSeen(c, x, t);
    LeaderSeen(c, y, t);
    if Seen(x, BecameLeader(t)) in c.seen && Seen(y, BecameLeader(t)) in c.seen {
      assert Elected(c, x, t) && Elected(c, y, t);
      ElectedOnce(c, x, y, t);
    }
  }

  predicate Leads(n: Node, t: nat) { n.role == Leader && n.term == t }

  lemma LeaderSeen(c: Cluster, x: NodeId, t: nat)
    requires VotesHold(c)
    ensures x in c.hosts && Leads(c.hosts[x].node, t) ==> Seen(x, BecameLeader(t)) in c.seen
  {
    assert x in c.hosts ==> Counts(c, x, c.hosts[x].node);
  }

  lemma NonEmpty(rules: Rules, run: seq<Cluster>)
    requires IsRunUnder(rules, run)
    ensures run != []
  {
  }

  /** At the end of any run, wherever a crash interrupts the next step, replay
      that succeeds returns the Term and vote of before or of after the step. */
  lemma RecoversVote(rules: Rules, run: seq<Cluster>, id: NodeId, stim: Stimulus, k: nat)
    requires IsRunUnder(rules, run) && Enabled(run[|run| - 1], id, stim)
    requires var n := run[|run| - 1].hosts[id].node; k <= |Step(n, EventOf(n, stim)).writes|
    ensures var c := run[|run| - 1];
            var n, y := c.hosts[id].node, RecoveredAt(c, id, stim, k);
            y.Ok? ==> HardOf(y.value) == HardOf(DurableOf(n)) || HardOf(y.value) == HardOf(DurableOf(Step(n, EventOf(n, stim)).node))
  {
    hide IsRunUnder, Step, EventOf, Lawful, RecoveredAt, DiskHolds, KeepsHard;
    RunsHold(rules, run);
    NonEmpty(rules, run);
    var c := run[|run| - 1];
    var y := RecoveredAt(c, id, stim, k);
    assert Counts(c, id, c.hosts[id].node) && DiskHolds(c, id, c.hosts[id].node);
    StepLawful(c, id, stim);
    if y.Ok? { ReplaysVote(c, id, stim, k, y.value); }
  }

  /** No step and no crash forgets or changes a vote, or goes back in Terms. */
  lemma VotesAreNeverForgotten(rules: Rules, run: seq<Cluster>, c': Cluster, id: NodeId)
    requires IsRunUnder(rules, run) && NextUnder(rules, run[|run| - 1], c') && id in run[|run| - 1].hosts
    ensures id in c'.hosts && Onward(run[|run| - 1].hosts[id].node, c'.hosts[id].node)
  {
    hide IsRunUnder, Run, Resume, Step, EventOf, Enabled;
    RunsHold(rules, run);
    NonEmpty(rules, run);
    var c := run[|run| - 1];
    var j, stim :| StepUnder(rules, c, c', j, stim);
    StepOnward(rules, c, c', j, stim, id);
  }

  lemma StepOnward(rules: Rules, c: Cluster, c': Cluster, j: NodeId, stim: Stimulus, id: NodeId)
    requires VotesHold(c) && StepUnder(rules, c, c', j, stim) && id in c.hosts
    ensures id in c'.hosts && Onward(c.hosts[id].node, c'.hosts[id].node)
  {
    hide Run, Resume, Step, EventOf, Lawful, RecoveredAt, RestartGuarded;
    assert Counts(c, j, c.hosts[j].node) && DiskHolds(c, j, c.hosts[j].node);
    StepLawful(c, j, stim);
    if c' == Run(c, j, stim) {
      RunGrew(c, j, stim);
    } else {
      var k: nat :| CrashAt(rules, c, c', j, stim, k);
      CrashGrew(c, j, stim, k, RecoveredAt(c, j, stim, k).value);
    }
  }
}
