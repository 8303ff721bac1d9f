/** Pre-votes: no Term ever comes into being without a majority that, not having
    heard from a Leader, agreed to it beforehand. */
module Prevotes {
  import opened Types
  import opened Messages
  import opened Quorums
  import opened Node
  import opened Cluster
  import opened Speech
  import Votes
  import WalReplay
  import Elections
  import Sessions

  /** The step stays in the Node's Term or moves to one a message carried. */
  predicate Follows(n: Node, r: StepResult, seen: nat) {
    && OneTerm(r) && r.node.id == n.id && r.node.peers == n.peers
    && (r.node.term == n.term || r.node.term == seen)
    && (r.node.role == PreCandidate ==> SameSelf(n, r.node))
  }

  lemma VoteRequestFollows(n: Node, from: NodeId, m: Message)
    requires m.VoteRequest?
    ensures Follows(n, OnVoteRequest(n, from, m), m.term)
  {
  }

  lemma VoteReplyFollows(n: Node, from: NodeId, m: Message)
    requires m.VoteReply?
    ensures Follows(n, OnVoteReply(n, from, m), m.term)
  {
    hide SendAll;
    var noop := FirstEntry(n);
    var n1 := n.(votes := n.votes + {from});
    var n2 := n1.(role := Leader, leaderId := n.id, activePeers := {}, matchIndex := map[],
                  inFlight := map[], snapInFlight := map[], readReady := false,
                  log := n.log + [noop], nextIndex := InitialNext(n.peers, LastIndex(n) + 2));
    SendAllSpeaks(n2, n2.peers, 0);
  }

  lemma FinishFollows(n0: Node, n: Node, writes: seq<Write>, from: NodeId, m: Message)
    requires m.AppendRequest? && AllSave(writes, n.term) && n.term == m.term && n.role == Follower && n.id == n0.id && n.peers == n0.peers
    ensures Follows(n0, FinishAppend(n, writes, from, m), m.term)
  {
    hide ApplyThrough;
    var target := Min(m.leaderCommit, LastIndex(n));
    var n1 := if target > n.commit then n.(commit := target) else n;
    ApplyThroughSpeaks(n1, n1.commit);
  }

  lemma AppendRequestFollows(n: Node, from: NodeId, m: Message)
    requires m.AppendRequest?
    ensures Follows(n, OnAppendRequest(n, from, m), m.term)
  {
    hide FinishAppend, PlanAppend, Matches, ConflictHint;
    if n.term <= m.term {
      var n1 := Recognise(n, m.term, from);
      var hs := HardStateIf(m.term > n.term, n1);
      FinishFollows(n, n1, hs, from, m);
      match PlanAppend(n1, m.prevIndex + 1, m.entries)
      case Store(truncateFrom, tail) =>
        assert AllSave(hs + StoreWrites(truncateFrom, tail), m.term);
        FinishFollows(n, StoreEntries(n1, truncateFrom, tail), hs + StoreWrites(truncateFrom, tail), from, m);
      case _ =>
    }
  }

  lemma CurrentReplyFollows(n: Node, from: NodeId, m: Message, leaderCommit: nat)
    requires m.AppendReply? && n.role == Leader
    ensures Follows(n, CurrentReply(n, from, m, leaderCommit), m.term)
  {
    hide SendAll, AckRead, ApplyThrough, SendTo, PendingReadFor, LeaderCommit, NoteReply, Speaks;
    NoteReplySame(n, from, m);
    var n1 := NoteReply(n, from, m);
    var index := LeaderCommit(n1, LastIndex(n1));
    var n2 := n1.(commit := index);
    SendAllSpeaks(n2, n1.peers, 0);
    var sent := SendAll(n2, n1.peers, 0);
    AckReadSpeaks(sent.node, from, m.readId);
    ApplyThroughSpeaks(AckRead(sent.node, from, m.readId).node, index);
    SendToSpeaks(n1, from, PendingReadFor(n1, from));
    AckReadSpeaks(SendTo(n1, from, PendingReadFor(n1, from)).node, from, m.readId);
    AckReadSpeaks(n1, from, m.readId);
  }

  lemma SnapshotReplyFollows(n: Node, from: NodeId, m: Message)
    requires m.SnapshotReply?
    ensures Follows(n, OnSnapshotReply(n, from, m), m.term)
  {
    hide SendTo, PendingReadFor;
    var n1 := n.(snapInFlight := n.snapInFlight - {from},
                 matchIndex := n.matchIndex[from := Max(Get(n.matchIndex, from, 0), m.index)],
                 nextIndex := n.nextIndex[from := m.index + 1]);
    SendToSpeaks(n1, from, PendingReadFor(n1, from));
  }

  lemma MessageFollows(n: Node, from: NodeId, m: Message, t: nat)
    requires Speaks(m, t) && !m.PreVoteReply?
    ensures Follows(n, OnReceive(n, from, m), t)
  {
    hide Follows, OnVoteRequest, OnVoteReply, OnAppendRequest, CurrentReply, OnSnapshotReply;
    match m
    case VoteRequest(_, _, _) => VoteRequestFollows(n, from, m);
    case VoteReply(_, _) => VoteReplyFollows(n, from, m);
    case AppendRequest(_, _, _, _, _, _, _) => AppendRequestFollows(n, from, m);
    case AppendReply(_, _, _, _, _, _, _) =>
      SmallFollows(n, from, t, []);
      if n.role == Leader { CurrentReplyFollows(n, from, m, Get(n.inFlight, from, InFlight(0, 0)).leaderCommit); }
    case SnapshotReply(_, _, _, _, _, _) => SnapshotReplyFollows(n, from, m);
    case SnapshotRequest(_, _, _, _, _) => SmallFollows(n, from, t, []);
    case PreVoteRequest(_, _, _) => SmallFollows(n, from, t, OnPreVoteRequest(n, from, m).actions);
  }

  lemma SmallFollows(n: Node, from: NodeId, t: nat, actions: seq<Action>)
    requires AllSpeak(actions, n.term)
    ensures Follows(n, Unchanged(n), t) && Follows(n, StepDown(n, t), t) && Follows(n, StepResult(n, [], actions), t)
  {
  }

  lemma RecogniseSame(n: Node, t: nat, from: NodeId)
    requires n.term <= t
    ensures var n' := Recognise(n, t, from);
            n'.id == n.id && n'.peers == n.peers && n'.term == t && n'.role == Follower && AllSave(HardStateIf(t > n.term, n'), t)
  {
  }

  lemma ChunkFollows(n: Node, from: NodeId, m: Message, st: Staged)
    requires m.SnapshotRequest?
    ensures Follows(n, OnSnapshotRequest(n, from, m, st), m.term)
  {
    hide Recognise, HardStateIf, TermAt;
    if n.term <= m.term { RecogniseSame(n, m.term, from); }
  }

  lemma ProposalFollows(n: Node, ev: Event)
    requires ev.ProposeSession? || ev.ProposeSet? || ev.ProposeDelete?
    ensures Follows(n, OnPropose(n, ev), n.term)
  {
    hide SendAll;
    forall e: Entry | n.role == Leader ensures Follows(n, Propose(n, ev.proposalId, e), n.term) {
      SendAllSpeaks(n.(log := n.log + [e]), n.peers, 0);
    }
  }

  lemma HeartbeatFollows(n: Node)
    ensures Follows(n, OnHeartbeat(n), n.term)
  {
    hide SendAll, Speaks;
    SendAllSpeaks(n.(inFlight := map[]), n.peers, 0);
  }

  lemma CheckQuorumFollows(n: Node)
    ensures Follows(n, OnCheckQuorum(n), n.term)
  {
    hide Speaks;
  }

  lemma AppendFailedFollows(n: Node, to: NodeId, requestId: nat)
    ensures Follows(n, OnAppendFailed(n, to, requestId), n.term)
  {
    hide Speaks;
  }

  lemma ConfirmReadFollows(n: Node, id: nat)
    ensures Follows(n, OnConfirmRead(n, id), n.term)
  {
    hide SendAll, Speaks;
    SendAllSpeaks(n.(waiting := n.waiting[id := PendingRead({n.id}, 0, false)]), n.peers, id);
  }

  lemma CompactedFollows(n: Node, index: nat, term: nat)
    ensures Follows(n, OnCompacted(n, index, term), n.term)
  {
    hide Speaks, TermAt;
    if CanCompact(n, index, term) {
      assert SameSelf(n, n.(log := n.log[index - n.base..], base := index, baseTerm := term));
    }
  }

  lemma LocalFollows(n: Node, ev: Event)
    requires ev.HeartbeatTimeout? || ev.CheckQuorumTimeout? || ev.AppendFailed? || ev.ConfirmRead? || ev.SnapshotCompacted?
    ensures Follows(n, Step(n, ev), n.term)
  {
    hide Follows, OnHeartbeat, OnCheckQuorum, OnAppendFailed, OnConfirmRead, OnCompacted;
    match ev
    case HeartbeatTimeout => HeartbeatFollows(n);
    case CheckQuorumTimeout => CheckQuorumFollows(n);
    case AppendFailed(to, id) => AppendFailedFollows(n, to, id);
    case ConfirmRead(id) => ConfirmReadFollows(n, id);
    case SnapshotCompacted(index, term) => CompactedFollows(n, index, term);
  }

  lemma ElectionOneTerm(n: Node)
    ensures OneTerm(StartElection(n)) && OneTerm(OnElectionTimeout(n))
  {
    BroadcastSpeaks(n.peers, VoteRequest(n.term + 1, LastIndex(n), LastTerm(n)), n.term + 1);
    BroadcastSpeaks(n.peers, PreVoteRequest(n.term + 1, LastIndex(n), LastTerm(n)), n.term + 1);
    BroadcastSpeaks(n.peers, PreVoteRequest(n.term + 1, LastIndex(n), LastTerm(n)), n.term);
  }

  // ------------------------------------------------------------- the invariant

  /** A Node granted a pre-vote for Term t to another. */
  ghost predicate Granted(net: set<Packet>, voter: NodeId, candidate: NodeId, t: nat) {
    exists p :: p in net && IsGrant(p, voter, candidate, t)
  }

  predicate IsGrant(p: Packet, voter: NodeId, candidate: NodeId, t: nat) {
    p.from == voter && p.to == candidate && p.msg.PreVoteReply? && p.msg.term == t && p.msg.granted
  }

  /** A majority including the candidate itself agreed to Term t. */
  ghost predicate BackedBy(c: Cluster, t: nat, candidate: NodeId, q: set<NodeId>) {
    && candidate in q && IsQuorum(c.hosts.Keys, q)
    && forall v :: v in q && v != candidate ==> Granted(c.net, v, candidate, t)
  }

  ghost predicate Backed(c: Cluster, t: nat) {
    t == 0 || exists candidate, q :: BackedBy(c, t, candidate, q)
  }

  ghost predicate NodeBacked(c: Cluster, id: NodeId, n: Node) {
    && n.id == id && IsPeerList(c.hosts.Keys, id, n.peers)
    && Backed(c, n.term)
    && (n.role == PreCandidate ==>
          && id in n.preVotes && n.preVotes <= c.hosts.Keys
          && forall v :: v in n.preVotes && v != id ==> Granted(c.net, v, id, n.term + 1))
  }

  ghost predicate PacketBacked(c: Cluster, p: Packet) {
    p.from in c.hosts && (p.msg.PreVoteRequest? || exists t :: Speaks(p.msg, t) && Backed(c, t))
  }

  ghost predicate AllBacked(c: Cluster) {
    && (forall id {:trigger NodeBacked(c, id, c.hosts[id].node)} :: id in c.hosts ==> NodeBacked(c, id, c.hosts[id].node))
    && (forall p {:trigger PacketBacked(c, p)} :: p in c.net ==> PacketBacked(c, p))
  }

  lemma BackedStable(c: Cluster, c': Cluster, t: nat)
    requires c'.hosts.Keys == c.hosts.Keys && c.net <= c'.net && Backed(c, t)
    ensures Backed(c', t)
  {
    if t != 0 {
      var candidate, q :| BackedBy(c, t, candidate, q);
      forall v | v in q && v != candidate ensures Granted(c'.net, v, candidate, t) {
        var p :| p in c.net && IsGrant(p, v, candidate, t);
        assert p in c'.net;
      }
      assert BackedBy(c', t, candidate, q);
    }
  }

  lemma NodeStable(c: Cluster, c': Cluster, id: NodeId, n: Node)
    requires c'.hosts.Keys == c.hosts.Keys && c.net <= c'.net && NodeBacked(c, id, n)
    ensures NodeBacked(c', id, n)
  {
    BackedStable(c, c', n.term);
    if n.role == PreCandidate {
      forall v | v in n.preVotes && v != id ensures Granted(c'.net, v, id, n.term + 1) {
        var p :| p in c.net && IsGrant(p, v, id, n.term + 1);
        assert p in c'.net;
      }
    }
  }

  lemma PacketStable(c: Cluster, c': Cluster, p: Packet)
    requires c'.hosts.Keys == c.hosts.Keys && c.net <= c'.net && PacketBacked(c, p)
    ensures PacketBacked(c', p)
  {
    if !p.msg.PreVoteRequest? {
      var t :| Speaks(p.msg, t) && Backed(c, t);
      BackedStable(c, c', t);
    }
  }

  /** One Node changed, and everything new speaks for its backed Term. */
  lemma Reback(c: Cluster, c': Cluster, id: NodeId, t: nat, packets: set<Packet>)
    requires AllBacked(c) && id in c.hosts && c'.hosts.Keys == c.hosts.Keys && c'.net == c.net + packets
    requires forall j :: j in c.hosts && j != id ==> c'.hosts[j] == c.hosts[j]
    requires NodeBacked(c, id, c'.hosts[id].node) && Backed(c, t)
    requires forall p :: p in packets ==> p.from == id && Speaks(p.msg, t)
    ensures AllBacked(c')
  {
    BackedStable(c, c', t);
    forall j | j in c'.hosts ensures NodeBacked(c', j, c'.hosts[j].node) {
      if j != id { assert NodeBacked(c, j, c.hosts[j].node); }
      NodeStable(c, c', j, c'.hosts[j].node);
    }
    forall p | p in c'.net ensures PacketBacked(c', p) {
      if p in c.net {
        assert PacketBacked(c, p);
        PacketStable(c, c', p);
      } else {
        assert Speaks(p.msg, t) && Backed(c', t);
      }
    }
  }

  // --------------------------------------------------------------- every step

  /** The Node a step leaves, and the Term it speaks for, are backed already. */
  ghost predicate BackedStep(c: Cluster, id: NodeId, r: StepResult) {
    OneTerm(r) && Backed(c, r.node.term) && NodeBacked(c, id, r.node)
  }

  lemma FollowsBacked(c: Cluster, id: NodeId, n: Node, r: StepResult, seen: nat)
    requires NodeBacked(c, id, n) && Backed(c, seen) && Follows(n, r, seen)
    ensures BackedStep(c, id, r)
  {
  }

  lemma QuorumOf(c: Cluster, id: NodeId, n: Node, q: set<NodeId>)
    requires NodeBacked(c, id, n) && id in c.hosts && q <= c.hosts.Keys && |q| >= Quorum(n)
    ensures IsQuorum(c.hosts.Keys, q)
  {
    Elections.MembersCount(c.hosts.Keys, id, n.peers);
  }

  /** Enough pre-votes back the Term the Node then stands in. */
  lemma ElectionBacked(c: Cluster, id: NodeId, n: Node)
    requires NodeBacked(c, id, n) && id in c.hosts && n.role == PreCandidate && |n.preVotes| >= Quorum(n)
    ensures BackedStep(c, id, StartElection(n))
  {
    ElectionOneTerm(n);
    QuorumOf(c, id, n, n.preVotes);
    assert BackedBy(c, n.term + 1, id, n.preVotes);
  }

  lemma TimeoutBacked(c: Cluster, id: NodeId, n: Node)
    requires NodeBacked(c, id, n) && id in c.hosts
    ensures BackedStep(c, id, OnElectionTimeout(n))
  {
    ElectionOneTerm(n);
    if n.role != Leader {
      var n' := n.(recentContact := false, leaderId := "", role := PreCandidate, preVotes := {n.id});
      assert NodeBacked(c, id, n');
      if Quorum(n) == 1 { ElectionBacked(c, id, n'); }
    }
  }

  lemma PreVoteReplyBacked(c: Cluster, id: NodeId, n: Node, p: Packet)
    requires NodeBacked(c, id, n) && id in c.hosts && p in c.net && PacketBacked(c, p) && p.to == id && p.msg.PreVoteReply?
    ensures BackedStep(c, id, OnPreVoteReply(n, p.from, p.msg))
  {
    var n' := n.(preVotes := n.preVotes + {p.from});
    if p.msg.currentTerm <= n.term && n.role == PreCandidate && p.msg.term == n.term + 1 && p.msg.granted {
      assert IsGrant(p, p.from, id, n.term + 1);
      assert NodeBacked(c, id, n');
      if |n'.preVotes| >= Quorum(n') { ElectionBacked(c, id, n'); }
    }
  }

  lemma StepBacked(c: Cluster, id: NodeId, stim: Stimulus)
    requires AllBacked(c) && Enabled(c, id, stim)
    ensures BackedStep(c, id, Step(c.hosts[id].node, EventOf(c.hosts[id].node, stim)))
  {
    hide BackedStep, Follows, OnReceive, OnSnapshotRequest, OnElectionTimeout, OnPropose;
    var n := c.hosts[id].node;
    assert NodeBacked(c, id, n);
    match stim
    case Local(ev) =>
      if ev.ElectionTimeout? {
        TimeoutBacked(c, id, n);
      } else {
        if ev.ProposeSession? || ev.ProposeSet? || ev.ProposeDelete? { ProposalFollows(n, ev); } else { LocalFollows(n, ev); }
        FollowsBacked(c, id, n, Step(n, ev), n.term);
      }
    case Message(p) => MessageBacked(c, id, n, p);
    case Chunk(p, st) =>
      assert PacketBacked(c, p);
      ChunkFollows(n, p.from, p.msg, st);
      FollowsBacked(c, id, n, OnSnapshotRequest(n, p.from, p.msg, st), p.msg.term);
    case Compaction =>
      LocalFollows(n, EventOf(n, stim));
      FollowsBacked(c, id, n, Step(n, EventOf(n, stim)), n.term);
  }

  lemma MessageBacked(c: Cluster, id: NodeId, n: Node, p: Packet)
    requires AllBacked(c) && id in c.hosts && NodeBacked(c, id, n) && p in c.net && p.to == id
    ensures BackedStep(c, id, OnReceive(n, p.from, p.msg))
  {
    hide BackedStep, Follows, OnPreVoteReply;
    assert PacketBacked(c, p);
    if p.msg.PreVoteReply? {
      PreVoteReplyBacked(c, id, n, p);
    } else {
      hide OnReceive;
      var t :| Backed(c, t) && Speaks(p.msg, t) by { assert Backed(c, n.term); }
      MessageFollows(n, p.from, p.msg, t);
      FollowsBacked(c, id, n, OnReceive(n, p.from, p.msg), t);
    }
  }

  lemma NextBacked(rules: Rules, c: Cluster, c': Cluster)
    requires AllBacked(c) && Votes.VotesHold(c) && NextUnder(rules, c, c')
    ensures AllBacked(c')
  {
    hide AllBacked, Step, EventOf, RecoveredAt, RestartGuarded, Votes.VotesHold, Run, Resume, BackedStep;
    var id, stim :| StepUnder(rules, c, c', id, stim);
    StepBacked(c, id, stim);
    if c' == Run(c, id, stim) {
      RunBack(c, id, stim);
    } else {
      var k: nat :| CrashAt(rules, c, c', id, stim, k);
      var d := RecoveredAt(c, id, stim, k).value;
      RecoveredTerm(c, id, stim, k, d);
      ResumeBack(c, id, stim, k, d);
    }
  }

  lemma RunBack(c: Cluster, id: NodeId, stim: Stimulus)
    requires AllBacked(c) && id in c.hosts && BackedStep(c, id, Step(c.hosts[id].node, EventOf(c.hosts[id].node, stim)))
    ensures AllBacked(Run(c, id, stim))
  {
    hide AllBacked, Step, NodeBacked, Backed, OneTerm, Consume, EventOf;
    var h := c.hosts[id];
    var r := Step(h.node, EventOf(h.node, stim));
    var image := NewImage(h, stim, r.node.base);
    SentSpeak(id, image, r);
    Reback(c, Run(c, id, stim), id, r.node.term, Packets(id, image, r.actions));
  }

  lemma ResumeBack(c: Cluster, id: NodeId, stim: Stimulus, k: nat, d: Durable)
    requires AllBacked(c) && id in c.hosts && k <= |Step(c.hosts[id].node, EventOf(c.hosts[id].node, stim)).writes|
    requires BackedStep(c, id, Step(c.hosts[id].node, EventOf(c.hosts[id].node, stim)))
    requires var n := c.hosts[id].node; d.term == n.term || d.term == Step(n, EventOf(n, stim)).node.term
    ensures AllBacked(Resume(c, id, stim, k, d))
  {
    hide AllBacked, Step, NodeBacked, Backed, BackedStep, Consume, EventOf, ApplyThrough, JournalAt;
    var h := c.hosts[id];
    RestartBacked(c, id, h.node, Step(h.node, EventOf(h.node, stim)), d);
    Reback(c, Resume(c, id, stim, k, d), id, d.term, {});
  }

  lemma RecoveredTerm(c: Cluster, id: NodeId, stim: Stimulus, k: nat, d: Durable)
    requires Votes.VotesHold(c) && Enabled(c, id, stim) && k <= |Step(c.hosts[id].node, EventOf(c.hosts[id].node, stim)).writes|
    requires RecoveredAt(c, id, stim, k) == WalReplay.Ok(d)
    ensures var n := c.hosts[id].node; d.term == n.term || d.term == Step(n, EventOf(n, stim)).node.term
  {
    hide Step, EventOf, RecoveredAt, Votes.Lawful, Votes.Receives;
    var n := c.hosts[id].node;
    assert Votes.Counts(c, id, n) && Votes.DiskHolds(c, id, n);
    Votes.StepLawful(c, id, stim);
    Votes.ReplaysVote(c, id, stim, k, d);
  }

  lemma SentSpeak(id: NodeId, image: Sessions.Machine, r: StepResult)
    requires OneTerm(r)
    ensures forall p :: p in Packets(id, image, r.actions) ==> p.from == id && Speaks(p.msg, r.node.term)
  {
  }

  lemma RestartBacked(c: Cluster, id: NodeId, n: Node, r: StepResult, d: Durable)
    requires AllBacked(c) && id in c.hosts && n == c.hosts[id].node && BackedStep(c, id, r) && (d.term == n.term || d.term == r.node.term)
    ensures Backed(c, d.term) && NodeBacked(c, id, ApplyThrough(Restart(id, n.peers, d), d.commit).node)
  {
    hide ApplyThrough;
    assert NodeBacked(c, id, n);
    ApplyThroughSpeaks(Restart(id, n.peers, d), d.commit);
  }

  lemma {:induction false} RunBacked(rules: Rules, run: seq<Cluster>)
    requires IsRunUnder(rules, run)
    ensures AllBacked(run[|run| - 1])
    decreases |run|
  {
    hide AllBacked, NextUnder, Votes.VotesHold;
    var k := |run| - 1;
    if k == 0 {
      StartBacked(run[0]);
    } else {
      RunBacked(rules, run[..k]);
      Votes.RunsHold(rules, run[..k]);
      assert NextUnder(rules, run[k - 1], run[k - 1 + 1]);
      NextBacked(rules, run[k - 1], run[k]);
    }
  }

  lemma StartBacked(c: Cluster)
    requires IsStart(c)
    ensures AllBacked(c)
  {
  }

  /** In every run, whatever Term any Node is in was agreed to beforehand by a
      majority of pre-votes for one candidate. */
  lemma TermsNeedPreVotes(rules: Rules, run: seq<Cluster>, id: NodeId) returns (candidate: NodeId, q: set<NodeId>)
    requires IsRunUnder(rules, run) && id in run[|run| - 1].hosts && run[|run| - 1].hosts[id].node.term > 0
    ensures var c := run[|run| - 1];
            && candidate in q && IsQuorum(c.hosts.Keys, q)
            && forall v :: v in q && v != candidate ==> Granted(c.net, v, candidate, c.hosts[id].node.term)
  {
    var c := run[|run| - 1];
    RunBacked(rules, run);
    assert NodeBacked(c, id, c.hosts[id].node);
    candidate, q :| BackedBy(c, c.hosts[id].node.term, candidate, q);
  }

  lemma {:induction false} NetGrows(rules: Rules, run: seq<Cluster>, i: nat)
    requires IsRunUnder(rules, run) && i < |run|
    ensures run[i].net <= run[|run| - 1].net && run[i].hosts.Keys == run[|run| - 1].hosts.Keys
    decreases |run|
  {
    hide NextUnder, IsStart;
    var k := |run| - 1;
    if i < k {
      NetGrows(rules, run[..k], i);
      assert NextUnder(rules, run[k - 1], run[k - 1 + 1]);
      NetKept(rules, run[k - 1], run[k]);
    }
  }

  lemma NetKept(rules: Rules, c: Cluster, c': Cluster)
    requires NextUnder(rules, c, c')
    ensures c.net <= c'.net && c.hosts.Keys == c'.hosts.Keys
  {
    hide Step, EventOf, Consume, ApplyThrough, RecoveredAt, RestartGuarded, JournalAt;
    var id, stim :| StepUnder(rules, c, c', id, stim);
  }

  lemma PrefixIsRun(rules: Rules, run: seq<Cluster>, i: nat)
    requires IsRunUnder(rules, run) && i < |run|
    ensures IsRunUnder(rules, run[..i + 1])
  {
    hide NextUnder, IsStart;
  }

  /** Where no majority ever grants a pre-vote for a Term, no Node ever enters it:
      a candidate cut off from a majority raises nobody's Term. */
  lemma NoPreVotesNoTerm(rules: Rules, run: seq<Cluster>, t: nat, i: nat, id: NodeId)
    requires IsRunUnder(rules, run) && 0 < t && i < |run| && id in run[i].hosts
    requires !Backed(run[|run| - 1], t)
    ensures run[i].hosts[id].node.term != t
  {
    hide IsRunUnder, BackedBy;
    PrefixIsRun(rules, run, i);
    NetGrows(rules, run, i);
    LastOf(run, i);
    if run[i].hosts[id].node.term == t {
      RunBacked(rules, run[..i + 1]);
      BackedIn(run[i], id);
      BackedStable(run[i], run[|run| - 1], t);
    }
  }

  lemma LastOf(run: seq<Cluster>, i: nat)
    requires i < |run|
    ensures run[..i + 1][|run[..i + 1]| - 1] == run[i]
  {
  }

  lemma BackedIn(c: Cluster, id: NodeId)
    requires AllBacked(c) && id in c.hosts
    ensures Backed(c, c.hosts[id].node.term)
  {
    assert NodeBacked(c, id, c.hosts[id].node);
  }
}
